/** The rules FileChooserFxImpl applies as plain expressions: which files a
    listing shows (getFiles, GetFilesPredicate), which extension filter the
    combo box selects (updateSelectedExtensionFilter) and when the Add
    Favorite button is enabled (shouldEnableAddFavBtn). */
module FileChooserRules {
  import opened Wrappers
  import opened Sequences
  import opened Paths

  /** The two switches the listing depends on: the showHiddenFiles property
      and the hideFiles mode (a directories-only open dialog). */
  datatype Options = Options(showHiddenFiles: bool, hideFiles: bool)

  /** GetFilesPredicate.test (FileChooserFxImpl.java:987-993): a hidden file
      is dropped unless hidden files are shown, and in hideFiles mode only
      directories pass. */
  function Included(options: Options, file: File): (included: bool)
    ensures !options.showHiddenFiles && file.meta.isHidden ==> !included
    ensures options.hideFiles && !file.meta.isDir ==> !included
    ensures (options.showHiddenFiles || !file.meta.isHidden) && (!options.hideFiles || file.meta.isDir) ==> included
  {
    !(!options.showHiddenFiles && file.meta.isHidden) && (!options.hideFiles || file.meta.isDir)
  }

  /** getFiles (FileChooserFxImpl.java:961-971): the children of `directory`
      that the extension filter accepts (`matches(extensions, _)`, the opaque
      DirOrWildcardFilter) and that GetFilesPredicate keeps, in listing order.
      A path that is not a directory, or a directory whose listing fails,
      yields nothing. */
  function GetFiles(fs: FileSystem, matches: (seq<string>, File) -> bool, extensions: seq<string>,
                    options: Options, directory: Path): (files: seq<File>)
    ensures !IsDirectory(fs, directory) || directory !in fs.contents ==> files == []
    ensures forall f :: f in files <==>
      IsDirectory(fs, directory) && directory in fs.contents && f in fs.contents[directory] &&
      matches(extensions, f) && Included(options, f)
    ensures options.hideFiles ==> forall f :: f in files ==> f.meta.isDir
    ensures !options.showHiddenFiles ==> forall f :: f in files ==> !f.meta.isHidden
  {
    if !IsDirectory(fs, directory) then []
    else if directory !in fs.contents then []
    else
      var listed := Filter(fs.contents[directory], f => matches(extensions, f));
      Filter(listed, f => Included(options, f))
  }

  /** FileChooser.ExtensionFilter: a description and its list of extensions. */
  datatype ExtensionFilter = ExtensionFilter(description: string, extensions: seq<string>)

  /** List.containsAll. */
  predicate ContainsAll(xs: seq<string>, ys: seq<string>) {
    forall y :: y in ys ==> y in xs
  }

  /** The combo box items (FileChooserFxImpl.java:703-709): the configured
      filters, or the single "all files" filter when none is configured. */
  function ComboItems(filters: seq<ExtensionFilter>, allFiles: ExtensionFilter): (items: seq<ExtensionFilter>)
    ensures |items| > 0
    ensures filters != [] ==> items == filters
    ensures filters == [] ==> items == [allFiles]
  {
    if filters == [] then [allFiles] else filters
  }

  /** stream().filter(f -> f.getExtensions().containsAll(wanted)).findFirst(),
      as the index of the first configured filter that qualifies. */
  function FindFirstContaining(filters: seq<ExtensionFilter>, wanted: seq<string>): (found: Option<nat>)
    ensures found.Some? ==> found.value < |filters| && ContainsAll(filters[found.value].extensions, wanted)
    ensures found.Some? ==> forall j :: 0 <= j < found.value ==> !ContainsAll(filters[j].extensions, wanted)
    ensures found.None? ==> forall j :: 0 <= j < |filters| ==> !ContainsAll(filters[j].extensions, wanted)
    decreases |filters|
  {
    if filters == [] then None
    else if ContainsAll(filters[0].extensions, wanted) then Some(0)
    else match FindFirstContaining(filters[1..], wanted)
      case None => None
      case Some(i) => Some(i + 1)
  }

  /** updateSelectedExtensionFilter (FileChooserFxImpl.java:795-812): with no
      selection the first combo item is taken as selected; then the first
      configured filter whose extensions contain all the selected ones wins,
      and otherwise the first combo item. The result is what both the
      selectedExtensionFilter property and the combo box value are set to. */
  function SelectExtensionFilter(filters: seq<ExtensionFilter>, allFiles: ExtensionFilter,
                                 selected: Option<ExtensionFilter>): (chosen: ExtensionFilter)
    ensures chosen in ComboItems(filters, allFiles)
  {
    var items := ComboItems(filters, allFiles);
    var wanted := selected.GetOr(items[0]).extensions;
    match FindFirstContaining(filters, wanted)
    case Some(i) => filters[i]
    case None => items[0]
  }

  /** The chosen filter is the first configured filter covering the selected
      extensions, or, when there is none, the first combo item. */
  lemma SelectExtensionFilterChoice(filters: seq<ExtensionFilter>, allFiles: ExtensionFilter,
                                    selected: Option<ExtensionFilter>)
    ensures var wanted := selected.GetOr(ComboItems(filters, allFiles)[0]).extensions;
      var chosen := SelectExtensionFilter(filters, allFiles, selected);
      (exists i :: 0 <= i < |filters| && chosen == filters[i] && ContainsAll(filters[i].extensions, wanted) &&
                   forall j :: 0 <= j < i ==> !ContainsAll(filters[j].extensions, wanted))
      || ((forall j :: 0 <= j < |filters| ==> !ContainsAll(filters[j].extensions, wanted)) &&
          chosen == ComboItems(filters, allFiles)[0])
  {
    var wanted := selected.GetOr(ComboItems(filters, allFiles)[0]).extensions;
    match FindFirstContaining(filters, wanted)
    case Some(i) =>
    case None =>
  }

  /** With nothing selected and at least one filter configured, the first
      configured filter is chosen; with none configured, "all files". */
  lemma SelectExtensionFilterDefault(filters: seq<ExtensionFilter>, allFiles: ExtensionFilter)
    ensures filters != [] ==> SelectExtensionFilter(filters, allFiles, None) == filters[0]
    ensures filters == [] ==> SelectExtensionFilter(filters, allFiles, None) == allFiles
  {
    if filters != [] {
      assert ContainsAll(filters[0].extensions, filters[0].extensions);
    }
  }

  /** Running updateSelectedExtensionFilter again on its own result changes
      nothing. */
  lemma SelectExtensionFilterIdempotent(filters: seq<ExtensionFilter>, allFiles: ExtensionFilter,
                                        selected: Option<ExtensionFilter>)
    ensures var chosen := SelectExtensionFilter(filters, allFiles, selected);
      SelectExtensionFilter(filters, allFiles, Some(chosen)) == chosen
  {
    var items := ComboItems(filters, allFiles);
    var wanted := selected.GetOr(items[0]).extensions;
    var chosen := SelectExtensionFilter(filters, allFiles, selected);
    match FindFirstContaining(filters, wanted)
    case Some(i) =>
      // filters[i] covers `wanted`; an earlier filter covering filters[i]
      // would cover `wanted` too, so filters[i] is again the first.
      assert chosen == filters[i];
      match FindFirstContaining(filters, chosen.extensions) {
        case Some(k) =>
          assert ContainsAll(filters[i].extensions, chosen.extensions);
          if k < i {
            assert ContainsAll(filters[k].extensions, wanted);
          }
        case None =>
          assert ContainsAll(filters[i].extensions, chosen.extensions);
      }
    case None =>
      assert chosen == items[0];
      if filters != [] {
        assert ContainsAll(filters[0].extensions, chosen.extensions);
      }
  }

  /** shouldEnableAddFavBtn (FileChooserFxImpl.java:1033-1044): only with the
      button present, a selected directory, and a canonical form that is not
      already a favourite; a canonicalisation failure disables it. */
  function ShouldEnableAddFavBtn(fs: FileSystem, favoriteDirs: seq<Path>, buttonPresent: bool,
                                 file: Option<Path>): (enable: bool)
    ensures enable <==>
      buttonPresent && file.Some? && IsDirectory(fs, file.value) &&
      Canonical(fs, file.value).Some? && Canonical(fs, file.value).value !in favoriteDirs
  {
    if !buttonPresent || file.None? || !IsDirectory(fs, file.value) then false
    else match Canonical(fs, file.value)
      case None => false
      case Some(canonicalized) => canonicalized !in favoriteDirs
  }

  /** The Add Favorite action (FileChooserFxImpl.java:756-763): appends the
      canonical form of the current selection; a canonicalisation failure is
      logged and adds nothing. */
  function AddFavorite(fs: FileSystem, favoriteDirs: seq<Path>, selection: Path): (favorites: seq<Path>)
    ensures Canonical(fs, selection).None? ==> favorites == favoriteDirs
    ensures Canonical(fs, selection).Some? ==> favorites == favoriteDirs + [Canonical(fs, selection).value]
  {
    match Canonical(fs, selection)
    case None => favoriteDirs
    case Some(c) => favoriteDirs + [c]
  }

  /** An enabled Add Favorite button adds exactly one new favourite, after
      which the same selection no longer enables the button. */
  lemma AddFavoriteDisablesButton(fs: FileSystem, favoriteDirs: seq<Path>, selection: Path)
    requires ShouldEnableAddFavBtn(fs, favoriteDirs, true, Some(selection))
    ensures |AddFavorite(fs, favoriteDirs, selection)| == |favoriteDirs| + 1
    ensures !ShouldEnableAddFavBtn(fs, AddFavorite(fs, favoriteDirs, selection), true, Some(selection))
  {
    var favorites := AddFavorite(fs, favoriteDirs, selection);
    assert favorites[|favoriteDirs|] == fs.canonical[selection];
  }
}
