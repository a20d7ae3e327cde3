/** The Command pattern: cleaning jobs are objects bound to a house; a maid (the invoker)
    executes any list of them without knowing what each one does. */
module Command {

  datatype CleanState = Dirty | Clean

  datatype Room = Bathroom | Bedroom | Kitchen

  /** The receiver: every room starts dirty. */
  class House {
    var bathroomState: CleanState
    var bedroomState: CleanState
    var kitchenState: CleanState

    constructor ()
      ensures forall room :: State(room) == Dirty
    {
      bathroomState, bedroomState, kitchenState := Dirty, Dirty, Dirty;
    }

    /** The state recorded for a room; each room has a state of its own. */
    function State(room: Room): (r: CleanState)
      reads this
      ensures r == match room
                   case Bathroom => bathroomState
                   case Bedroom => bedroomState
                   case Kitchen => kitchenState
    {
      match room
      case Bathroom => bathroomState
      case Bedroom => bedroomState
      case Kitchen => kitchenState
    }
  }

  /** The four concrete commands. */
  datatype TaskKind = CleanKitchenTask | CleanBathroomTask | CleanBedroomTask | CleanTheWholeHouseTask

  /** The rooms a command cleans. */
  predicate Cleans(kind: TaskKind, room: Room)
  {
    match kind
    case CleanKitchenTask => room == Kitchen
    case CleanBathroomTask => room == Bathroom
    case CleanBedroomTask => room == Bedroom
    case CleanTheWholeHouseTask => true
  }

  /** A command bound to the house it works on. */
  datatype HouseTask = HouseTask(kind: TaskKind, house: House)

  /** A command cleans its rooms and leaves the others as they were. */
  method Execute(task: HouseTask)
    modifies task.house
    ensures forall room :: task.house.State(room) == if Cleans(task.kind, room) then Clean else old(task.house.State(room))
  {
    var h := task.house;
    match task.kind
    case CleanKitchenTask => h.kitchenState := Clean;
    case CleanBathroomTask => h.bathroomState := Clean;
    case CleanBedroomTask => h.bedroomState := Clean;
    case CleanTheWholeHouseTask =>
      h.bathroomState := Clean;
      h.bedroomState := Clean;
      h.kitchenState := Clean;
  }

  function Houses(tasks: seq<HouseTask>): set<House>
  {
    set i | 0 <= i < |tasks| :: tasks[i].house
  }

  /** Some command in the list cleans this room of this house. */
  predicate CleanedBy(tasks: seq<HouseTask>, h: House, room: Room)
  {
    exists i :: 0 <= i < |tasks| && tasks[i].house == h && Cleans(tasks[i].kind, room)
  }

  /** The invoker runs the commands in order. Afterwards a room is clean exactly when some
      command cleaned it or it was clean before; no command makes a room dirty. */
  method ExecuteTasks(tasks: seq<HouseTask>)
    modifies Houses(tasks)
    ensures forall h, room | h in Houses(tasks) ::
              h.State(room) == if CleanedBy(tasks, h, room) then Clean else old(h.State(room))
  {
    for i := 0 to |tasks|
      invariant forall h, room | h in Houses(tasks) ::
                  h.State(room) == if CleanedBy(tasks[..i], h, room) then Clean else old(h.State(room))
    {
      assert tasks[i].house in Houses(tasks);
      Execute(tasks[i]);
      forall h, room | h in Houses(tasks)
        ensures CleanedBy(tasks[..i + 1], h, room) <==>
                CleanedBy(tasks[..i], h, room) || (tasks[i].house == h && Cleans(tasks[i].kind, room))
      {
        if CleanedBy(tasks[..i + 1], h, room) {
          var j :| 0 <= j < i + 1 && tasks[..i + 1][j].house == h && Cleans(tasks[..i + 1][j].kind, room);
          if j < i {
            assert tasks[..i][j] == tasks[..i + 1][j];
          }
        }
        if CleanedBy(tasks[..i], h, room) {
          var j :| 0 <= j < i && tasks[..i][j].house == h && Cleans(tasks[..i][j].kind, room);
          assert tasks[..i + 1][j] == tasks[..i][j];
        }
        if tasks[i].house == h && Cleans(tasks[i].kind, room) {
          assert tasks[..i + 1][i] == tasks[i];
        }
      }
    }
    assert tasks[..|tasks|] == tasks;
  }

  /** The whole-house command does what the three single-room commands do together. */
  lemma WholeHouseIsThreeRooms(h: House, room: Room)
    ensures CleanedBy([HouseTask(CleanTheWholeHouseTask, h)], h, room)
    ensures CleanedBy([HouseTask(CleanBathroomTask, h), HouseTask(CleanBedroomTask, h), HouseTask(CleanKitchenTask, h)], h, room)
  {
    var three := [HouseTask(CleanBathroomTask, h), HouseTask(CleanBedroomTask, h), HouseTask(CleanKitchenTask, h)];
    assert [HouseTask(CleanTheWholeHouseTask, h)][0].house == h;
    match room
    case Bathroom => assert three[0].house == h && Cleans(three[0].kind, room);
    case Bedroom => assert three[1].house == h && Cleans(three[1].kind, room);
    case Kitchen => assert three[2].house == h && Cleans(three[2].kind, room);
  }

  /** Running a list of commands twice cleans nothing more than running it once. */
  lemma RepeatCleansNothingMore(tasks: seq<HouseTask>, h: House, room: Room)
    ensures CleanedBy(tasks + tasks, h, room) <==> CleanedBy(tasks, h, room)
  {
    if CleanedBy(tasks + tasks, h, room) {
      var i :| 0 <= i < |tasks + tasks| && (tasks + tasks)[i].house == h && Cleans((tasks + tasks)[i].kind, room);
      var j := if i < |tasks| then i else i - |tasks|;
      assert tasks[j] == (tasks + tasks)[i];
    }
    if CleanedBy(tasks, h, room) {
      var i :| 0 <= i < |tasks| && tasks[i].house == h && Cleans(tasks[i].kind, room);
      assert (tasks + tasks)[i] == tasks[i];
    }
  }

  /** The example scenario: the first house gets its bathroom and kitchen cleaned, the second
      only its bedroom, the third everything. */
  method CleaningScenario()
  {
    var firstHouse := new House();
    var tasks := [HouseTask(CleanBathroomTask, firstHouse), HouseTask(CleanKitchenTask, firstHouse)];
    assert firstHouse in Houses(tasks) by { assert tasks[0].house == firstHouse; }
    ExecuteTasks(tasks);
    assert CleanedBy(tasks, firstHouse, Bathroom) by { assert tasks[0].house == firstHouse; }
    assert CleanedBy(tasks, firstHouse, Kitchen) by { assert tasks[1].house == firstHouse; }
    assert firstHouse.State(Bathroom) == Clean && firstHouse.State(Kitchen) == Clean;
    assert firstHouse.State(Bedroom) == Dirty;

    var secondHouse := new House();
    tasks := [HouseTask(CleanBedroomTask, secondHouse)];
    assert secondHouse in Houses(tasks) by { assert tasks[0].house == secondHouse; }
    ExecuteTasks(tasks);
    assert CleanedBy(tasks, secondHouse, Bedroom) by { assert tasks[0].house == secondHouse; }
    assert secondHouse.State(Bedroom) == Clean;
    assert secondHouse.State(Bathroom) == Dirty && secondHouse.State(Kitchen) == Dirty;

    var thirdHouse := new House();
    tasks := [HouseTask(CleanTheWholeHouseTask, thirdHouse)];
    assert thirdHouse in Houses(tasks) by { assert tasks[0].house == thirdHouse; }
    ExecuteTasks(tasks);
    forall room ensures CleanedBy(tasks, thirdHouse, room) { assert tasks[0].house == thirdHouse; }
    assert forall room :: thirdHouse.State(room) == Clean;
  }
}
