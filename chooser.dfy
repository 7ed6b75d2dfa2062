/** The navigation state of FileChooserFxImpl: the current directory, the
    back history (a Deque used as a stack), the Back button's disabled flag,
    the current selection, the breadcrumb, the selected extension filter and
    the files the current view shows. */
module FileChooserFxImpl {
  import opened Wrappers
  import opened Paths
  import opened FileChooserRules

  /** The breadcrumb after updateDirBreadCrumbBar(directory): the ancestor
      chain of its canonical form, or the old breadcrumb when
      canonicalisation fails (the IOException is only logged). */
  function CrumbsAfter(fs: FileSystem, crumbs: seq<Path>, directory: Path): seq<Path> {
    match Canonical(fs, directory)
    case None => crumbs
    case Some(c) => Ancestors(c)
  }

  class FileChooser {
    const fs: FileSystem
    /** DirOrWildcardFilter(extensions).accept(file), whose source is not modelled. */
    const matches: (seq<string>, File) -> bool
    const options: Options
    /** The configured extension filters (getExtensionFilters). */
    const extensionFilters: seq<ExtensionFilter>
    /** The "all files" (*.*) filter offered when none is configured. */
    const allFilesFilter: ExtensionFilter

    var currentDirectory: Option<Path>
    /** directoryStack; the top of the stack (Deque.push/pop) is at index 0. */
    var directoryStack: seq<Path>
    var backDisabled: bool
    var currentSelection: Option<Path>
    /** The breadcrumb bar, root first; the selected crumb is the last one. */
    var breadcrumb: seq<Path>
    var selectedExtensionFilter: Option<ExtensionFilter>
    /** The extensions combo box's value; None when the combo box is absent (hideFiles). */
    var comboValue: Option<ExtensionFilter>
    /** What currentView.setFiles was last given. */
    var shownFiles: seq<File>

    /** The Back button is disabled exactly when there is no history, the
        breadcrumb is empty or the full ancestor chain of its last crumb, and
        the extensions combo box exists exactly when files are not hidden. */
    ghost predicate Valid()
      reads this
    {
      (backDisabled <==> directoryStack == []) &&
      (breadcrumb == [] || breadcrumb == Ancestors(breadcrumb[|breadcrumb| - 1])) &&
      (comboValue.None? <==> options.hideFiles)
    }

    /** getFileFilter (FileChooserFxImpl.java:977-982): the extension list
        handed to DirOrWildcardFilter. */
    function FilterExtensions(): (extensions: seq<string>)
      reads this
      ensures comboValue.None? ==> extensions == []
      ensures comboValue.Some? ==> extensions == comboValue.value.extensions
    {
      match comboValue
      case None => []
      case Some(f) => f.extensions
    }

    /** getFiles(directory) under the current filter: only children of the
        directory, never a hidden one unless hidden files are shown, and only
        directories in hideFiles mode. */
    function Listing(directory: Path): (files: seq<File>)
      reads this
      ensures forall f :: f in files ==> directory in fs.contents && f in fs.contents[directory]
      ensures options.hideFiles ==> forall f :: f in files ==> f.meta.isDir
      ensures !options.showHiddenFiles ==> forall f :: f in files ==> !f.meta.isHidden
    {
      GetFiles(fs, matches, FilterExtensions(), options, directory)
    }

    /** The field initialisers (directoryStack empty, line 75), the Back button
        created disabled (line 420), the extensions pane's filter selection
        (lines 702-717) and the first listing of showDialog (lines 293-297). */
    constructor (fs: FileSystem, matches: (seq<string>, File) -> bool, options: Options,
                 extensionFilters: seq<ExtensionFilter>, allFilesFilter: ExtensionFilter,
                 preselected: Option<ExtensionFilter>, initialDirectory: Option<Path>)
      ensures Valid()
      ensures this.fs == fs && this.matches == matches && this.options == options
      ensures this.extensionFilters == extensionFilters && this.allFilesFilter == allFilesFilter
      ensures directoryStack == [] && backDisabled
      ensures currentDirectory == Some(initialDirectory.GetOr(WorkingDirectory))
      ensures currentSelection == None
      ensures options.hideFiles ==> comboValue == None && selectedExtensionFilter == preselected
      ensures !options.hideFiles ==>
        var chosen := SelectExtensionFilter(extensionFilters, allFilesFilter, preselected);
        comboValue == Some(chosen) && selectedExtensionFilter == Some(chosen)
      ensures shownFiles == Listing(currentDirectory.value)
      ensures breadcrumb == CrumbsAfter(fs, [], currentDirectory.value)
    {
      this.fs := fs;
      this.matches := matches;
      this.options := options;
      this.extensionFilters := extensionFilters;
      this.allFilesFilter := allFilesFilter;
      directoryStack := [];
      backDisabled := true;
      currentSelection := None;
      breadcrumb := [];
      shownFiles := [];
      if options.hideFiles {
        comboValue := None;
        selectedExtensionFilter := preselected;
      } else {
        var chosen := SelectExtensionFilter(extensionFilters, allFilesFilter, preselected);
        comboValue := Some(chosen);
        selectedExtensionFilter := Some(chosen);
      }
      currentDirectory := Some(initialDirectory.GetOr(WorkingDirectory));
      new;
      UpdateFiles(currentDirectory.value, true);
    }

    /** updateDirBreadCrumbBar (FileChooserFxImpl.java:931-954): canonicalise,
        then walk getParentFile until null, each new crumb becoming the parent
        of the previous one. */
    method UpdateDirBreadCrumbBar(directory: Path)
      modifies this`breadcrumb
      ensures breadcrumb == CrumbsAfter(fs, old(breadcrumb), directory)
    {
      if directory !in fs.canonical {
        return;  // IOException: logged, the breadcrumb bar is left as it was
      }
      var canonicalDir := fs.canonical[directory];
      ghost var chain := Ancestors(canonicalDir);
      var currentDir: Option<Path> := Some(canonicalDir);
      var crumbs: seq<Path> := [];
      while currentDir.Some?
        invariant currentDir.Some? ==>
          |currentDir.value| <= |canonicalDir| && currentDir.value == canonicalDir[..|currentDir.value|] &&
          crumbs == chain[|currentDir.value| + 1..]
        invariant currentDir.None? ==> crumbs == chain
        decreases if currentDir.Some? then |currentDir.value| + 1 else 0
      {
        var dir := currentDir.value;
        assert chain[|dir|] == dir;
        crumbs := [dir] + crumbs;
        assert crumbs == chain[|dir|..];
        currentDir := Parent(dir);
      }
      breadcrumb := crumbs;
    }

    /** updateFiles (FileChooserFxImpl.java:897-904): list `directory`, and
        rebuild the breadcrumb from the current directory when asked. */
    method UpdateFiles(directory: Path, updateBreadCrumbBar: bool)
      requires updateBreadCrumbBar ==> currentDirectory.Some?
      modifies this`shownFiles, this`breadcrumb
      ensures shownFiles == Listing(directory)
      ensures breadcrumb ==
        if updateBreadCrumbBar then CrumbsAfter(fs, old(breadcrumb), currentDirectory.value) else old(breadcrumb)
    {
      shownFiles := GetFiles(fs, matches, FilterExtensions(), options, directory);
      if updateBreadCrumbBar {
        UpdateDirBreadCrumbBar(currentDirectory.value);
      }
    }

    /** changeDirectory (FileChooserFxImpl.java:916-926): push the old current
        directory (if any) and enable Back, move to `directory`, clear the
        selection and re-list. */
    method ChangeDirectory(directory: Path, updateBreadCrumbBar: bool)
      requires Valid()
      modifies this`currentDirectory, this`directoryStack, this`backDisabled, this`currentSelection,
               this`shownFiles, this`breadcrumb
      ensures Valid()
      ensures old(currentDirectory).Some? ==>
        directoryStack == [old(currentDirectory).value] + old(directoryStack) && !backDisabled
      ensures old(currentDirectory).None? ==>
        directoryStack == old(directoryStack) && backDisabled == old(backDisabled)
      ensures currentDirectory == Some(directory)
      ensures currentSelection == None
      ensures shownFiles == Listing(directory)
      ensures breadcrumb == if updateBreadCrumbBar then CrumbsAfter(fs, old(breadcrumb), directory) else old(breadcrumb)
    {
      if currentDirectory.Some? {
        directoryStack := [currentDirectory.value] + directoryStack;
        backDisabled := false;
      }
      currentDirectory := Some(directory);
      currentSelection := None;
      UpdateFiles(directory, updateBreadCrumbBar);
    }

    /** The Back button's action (FileChooserFxImpl.java:422-431): nothing
        without history; otherwise pop the top into the current directory,
        disable Back if the history is now empty, and re-list with the
        breadcrumb rebuilt. The selection is not cleared. */
    method Back()
      requires Valid()
      modifies this`currentDirectory, this`directoryStack, this`backDisabled, this`shownFiles, this`breadcrumb
      ensures Valid()
      ensures old(directoryStack) == [] ==> unchanged(this)
      ensures old(directoryStack) != [] ==>
        currentDirectory == Some(old(directoryStack)[0]) &&
        directoryStack == old(directoryStack)[1..] &&
        backDisabled == (directoryStack == []) &&
        shownFiles == Listing(old(directoryStack)[0]) &&
        breadcrumb == CrumbsAfter(fs, old(breadcrumb), old(directoryStack)[0])
      ensures currentSelection == old(currentSelection)
    {
      if directoryStack == [] {
        return;
      }
      currentDirectory := Some(directoryStack[0]);
      directoryStack := directoryStack[1..];
      backDisabled := directoryStack == [];
      UpdateFiles(currentDirectory.value, true);
    }

    /** A click on the crumb at index `k` of the breadcrumb bar. The handler
        (FileChooserFxImpl.java:455-463) ignores a click on the current
        directory and otherwise enters the crumb like changeDirectory, without
        rebuilding the breadcrumb. After the handler, the BreadCrumbBar
        (created at line 442 with auto-navigation left on) selects the clicked
        crumb itself, which cuts the bar back to the crumbs up to it. */
    method CrumbAction(k: nat)
      requires Valid() && currentDirectory.Some? && k < |breadcrumb|
      modifies this`currentDirectory, this`directoryStack, this`backDisabled, this`currentSelection,
               this`shownFiles, this`breadcrumb
      ensures Valid()
      ensures breadcrumb == old(breadcrumb)[..k + 1]
      ensures PathsEqual(fs, old(breadcrumb)[k], old(currentDirectory).value) ==>
        currentDirectory == old(currentDirectory) && directoryStack == old(directoryStack) &&
        backDisabled == old(backDisabled) && currentSelection == old(currentSelection) &&
        shownFiles == old(shownFiles)
      ensures !PathsEqual(fs, old(breadcrumb)[k], old(currentDirectory).value) ==>
        directoryStack == [old(currentDirectory).value] + old(directoryStack) && !backDisabled &&
        currentDirectory == Some(old(breadcrumb)[k]) && currentSelection == None &&
        shownFiles == Listing(old(breadcrumb)[k])
    {
      var selected := breadcrumb[k];
      if !PathsEqual(fs, selected, currentDirectory.value) {
        ChangeDirectory(selected, false);
      }
      // the bar's auto-navigation to the clicked crumb
      AncestorsPrefix(breadcrumb[|breadcrumb| - 1], k);
      breadcrumb := breadcrumb[..k + 1];
    }

    /** The extensions combo box's action (FileChooserFxImpl.java:712-715):
        select the picked filter and re-list the current directory without
        touching history or breadcrumb. */
    method ExtensionFilterChanged(picked: ExtensionFilter)
      requires Valid() && currentDirectory.Some? && !options.hideFiles
      modifies this`selectedExtensionFilter, this`comboValue, this`shownFiles
      ensures Valid()
      ensures selectedExtensionFilter == Some(picked) && comboValue == Some(picked)
      ensures shownFiles == Listing(currentDirectory.value)
      ensures shownFiles == GetFiles(fs, matches, picked.extensions, options, currentDirectory.value)
      ensures currentDirectory == old(currentDirectory) && directoryStack == old(directoryStack)
      ensures backDisabled == old(backDisabled) && breadcrumb == old(breadcrumb)
    {
      comboValue := Some(picked);
      selectedExtensionFilter := Some(picked);
      shownFiles := GetFiles(fs, matches, FilterExtensions(), options, currentDirectory.value);
    }
  }

  /** Back right after changeDirectory restores the previous current
      directory, history and Back button state. */
  method BackUndoesChangeDirectory(chooser: FileChooser, directory: Path, updateBreadCrumbBar: bool)
    requires chooser.Valid() && chooser.currentDirectory.Some?
    modifies chooser
    ensures chooser.Valid()
    ensures chooser.currentDirectory == old(chooser.currentDirectory)
    ensures chooser.directoryStack == old(chooser.directoryStack)
    ensures chooser.backDisabled == old(chooser.backDisabled)
  {
    chooser.ChangeDirectory(directory, updateBreadCrumbBar);
    chooser.Back();
  }

  /** From a fresh history: A -> B -> C, then Back twice, is at A again with
      an empty history and Back disabled. */
  method BackTwiceAfterTwoMoves(chooser: FileChooser, b: Path, c: Path)
    requires chooser.Valid() && chooser.currentDirectory.Some? && chooser.directoryStack == []
    modifies chooser
    ensures chooser.Valid()
    ensures chooser.currentDirectory == old(chooser.currentDirectory)
    ensures chooser.directoryStack == [] && chooser.backDisabled
  {
    chooser.ChangeDirectory(b, true);
    chooser.ChangeDirectory(c, true);
    chooser.Back();
    chooser.Back();
  }

  /** Nothing prevents a self-push: entering the current directory again (as
      the places view can) puts it on top of its own history. */
  method ReenterCurrentDirectory(chooser: FileChooser)
    requires chooser.Valid() && chooser.currentDirectory.Some?
    modifies chooser
    ensures chooser.Valid()
    ensures chooser.directoryStack != [] && chooser.currentDirectory == Some(chooser.directoryStack[0])
  {
    chooser.ChangeDirectory(chooser.currentDirectory.value, true);
  }
}
