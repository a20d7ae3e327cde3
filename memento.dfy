/** The Memento pattern: a file (the originator) saves its content in an immutable
    snapshot, a caretaker stacks the snapshots, and the file can be rolled back to one. */
module Memento {
  import opened Wrappers

  /** The snapshot: the content at the moment it was taken. */
  datatype FileState = FileState(content: string)

  /** Peeking at an empty stack fails. */
  datatype MementoError = NoSavedState

  /** The originator. */
  class File {
    var author: string
    var content: string
    var title: string

    constructor (author: string, content: string, title: string)
      ensures this.author == author && this.content == content && this.title == title
    {
      this.author := author;
      this.content := content;
      this.title := title;
    }

    method SetContent(c: string)
      modifies this
      ensures content == c && author == old(author) && title == old(title)
    {
      content := c;
    }

    /** Only the content is saved; author and title are not part of a snapshot. */
    function CreateState(): (s: FileState)
      reads this
      ensures s.content == content
    {
      FileState(content)
    }

    /** Rolls the content back to the snapshot; author and title are kept. */
    method RestoreState(state: FileState)
      modifies this
      ensures content == state.content && author == old(author) && title == old(title)
    {
      content := state.content;
    }
  }

  /** The caretaker: a stack of snapshots, the newest last. */
  class FileMemory {
    var states: seq<FileState>

    constructor ()
      ensures states == []
    {
      states := [];
    }

    method AddState(state: FileState)
      modifies this
      ensures states == old(states) + [state]
      ensures GetLastState() == Ok(state)
    {
      states := states + [state];
    }

    /** The newest snapshot, without removing it; none when nothing was saved. */
    function GetLastState(): (r: Result<FileState, MementoError>)
      reads this
      ensures r.Err? <==> states == []
      ensures r.Ok? ==> r.value == states[|states| - 1] && r.value in states
    {
      if states == [] then Err(NoSavedState) else Ok(states[|states| - 1])
    }
  }

  /** Saving and then restoring gives back the saved content, whatever happened in between. */
  method SaveEditRestore(file: File, memory: FileMemory, edit: string)
    modifies file, memory
    ensures file.content == old(file.content)
    ensures memory.states == old(memory.states) + [FileState(old(file.content))]
  {
    memory.AddState(file.CreateState());
    file.SetContent(edit);
    var last := memory.GetLastState();
    file.RestoreState(last.value);
  }

  /** The example scenario: the empty content is saved, overwritten, and restored. */
  method RollbackScenario()
  {
    var fileMemory := new FileMemory();
    var file := new File("John Doe", "", "The mermaid");
    fileMemory.AddState(file.CreateState());
    var initialState := fileMemory.GetLastState();
    assert initialState == Ok(FileState(""));
    file.SetContent("Once upon a time.");
    assert file.content != initialState.value.content;
    file.RestoreState(initialState.value);
    assert file.content == "";
  }
}
