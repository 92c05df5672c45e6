/**
 * The dashboard's navigation between its three lists: folders, the files
 * of the selected folder, and the quizzes of the selected file. On a small
 * screen one list shows at a time and a back button walks up the levels.
 */
module Dashboard {
  import opened Wrappers

  /** The list shown on a small screen. */
  datatype View = Folders | Files | Quizzes

  /** How many back steps separate the view from the folder list. */
  function Depth(v: View): (d: nat)
    ensures d <= 2 && (d == 0 <==> v == Folders)
  {
    match v
    case Folders => 0
    case Files => 1
    case Quizzes => 2
  }

  /** `handleBack`'s view change: one level up, and no change on the folder list. */
  function Back(v: View): (w: View)
    ensures v == Folders ==> w == Folders
    ensures v != Folders ==> Depth(w) == Depth(v) - 1
  {
    match v
    case Quizzes => Files
    case Files => Folders
    case Folders => Folders
  }

  /** `n` presses of the back button. */
  function BackTimes(v: View, n: nat): (w: View) {
    if n == 0 then v else Back(BackTimes(v, n - 1))
  }

  /** `n` presses lower the depth by `n` but not below the folder list. */
  lemma {:induction false} BackTimesDepth(v: View, n: nat)
    ensures Depth(BackTimes(v, n)) == if n < Depth(v) then Depth(v) - n else 0
  {
    if n > 0 {
      BackTimesDepth(v, n - 1);
    }
  }

  /** Two presses reach the folder list from any view, and further presses stay there. */
  lemma BackReachesFolders(v: View, n: nat)
    requires n >= 2
    ensures BackTimes(v, n) == Folders
  {
    BackTimesDepth(v, n);
  }

  /** The screen's selections and view, over a folder type `F` and a file type `G`. */
  class DashboardContent<F, G> {
    var selectedFolder: Option<F>
    var selectedFile: Option<G>
    var currentView: View

    /**
     * A file is selected only inside a selected folder, the file list shows
     * only with a folder selected, and the quiz list only with a file selected.
     */
    ghost predicate Valid()
      reads this
    {
      && (selectedFile.Some? ==> selectedFolder.Some?)
      && (currentView != Folders ==> selectedFolder.Some?)
      && (currentView == Quizzes ==> selectedFile.Some?)
    }

    /** The folder list, with nothing selected. */
    constructor()
      ensures Valid()
      ensures selectedFolder == None && selectedFile == None && currentView == Folders
    {
      selectedFolder := None;
      selectedFile := None;
      currentView := Folders;
    }

    /** Choosing a folder selects it, drops the selected file and shows its files. */
    method HandleFolderSelect(folder: F)
      requires Valid()
      modifies this
      ensures Valid()
      ensures selectedFolder == Some(folder) && selectedFile == None && currentView == Files
    {
      selectedFolder := Some(folder);
      selectedFile := None;
      currentView := Files;
    }

    /**
     * Choosing a file selects it and shows its quizzes; the folder stays.
     * Files are offered only from the selected folder's list.
     */
    method HandleFileSelect(file: G)
      requires Valid() && selectedFolder.Some?
      modifies this
      ensures Valid()
      ensures selectedFile == Some(file) && currentView == Quizzes
      ensures selectedFolder == old(selectedFolder)
    {
      selectedFile := Some(file);
      currentView := Quizzes;
    }

    /** The back button: one level up; the selections stay as they were. */
    method HandleBack()
      requires Valid()
      modifies this
      ensures Valid()
      ensures currentView == Back(old(currentView))
      ensures selectedFolder == old(selectedFolder) && selectedFile == old(selectedFile)
    {
      if currentView == Quizzes {
        currentView := Files;
      } else if currentView == Files {
        currentView := Folders;
      }
    }
  }
}
