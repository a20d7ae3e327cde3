/** The Decorator pattern: a lock added around a door. The lock refuses to open or
    close the door while it is locked and otherwise passes the request through. */
module Decorator {
  import opened Wrappers

  /** The exception a locked door raises. */
  datatype DoorError = DoorLocked

  /** The plain component: a door that is either open or closed. */
  class Door {
    var isOpen: bool

    /** A new door is closed. */
    constructor ()
      ensures !isOpen
    {
      isOpen := false;
    }

    method Open()
      modifies this
      ensures isOpen
    {
      isOpen := true;
    }

    method Close()
      modifies this
      ensures !isOpen
    {
      isOpen := false;
    }
  }

  /** The decorator: forwards to the wrapped door and adds a lock, which starts locked. */
  class LockProtected {
    const door: Door
    var locked: bool

    constructor (door: Door)
      ensures this.door == door && locked
    {
      this.door := door;
      locked := true;
    }

    /** The decorated door reports the wrapped door's state. */
    function Opened(): (r: bool)
      reads door
      ensures r <==> door.isOpen
    {
      door.isOpen
    }

    /** Locked: fails and the door stays as it was. Unlocked: opens the wrapped door. */
    method Open() returns (r: Outcome<DoorError>)
      modifies door
      ensures locked ==> r == Fail(DoorLocked) && door.isOpen == old(door.isOpen)
      ensures !locked ==> r == Pass && door.isOpen
    {
      if locked {
        return Fail(DoorLocked);
      }
      door.Open();
      r := Pass;
    }

    /** Locked: fails and the door stays as it was. Unlocked: closes the wrapped door. */
    method Close() returns (r: Outcome<DoorError>)
      modifies door
      ensures locked ==> r == Fail(DoorLocked) && door.isOpen == old(door.isOpen)
      ensures !locked ==> r == Pass && !door.isOpen
    {
      if locked {
        return Fail(DoorLocked);
      }
      door.Close();
      r := Pass;
    }

    /** Locking and unlocking leave the door itself alone, open or closed. */
    method Lock()
      modifies this
      ensures locked
    {
      locked := true;
    }

    method UnLock()
      modifies this
      ensures !locked
    {
      locked := false;
    }
  }

  /** The example scenario: the plain door opens and closes; wrapped in a lock it refuses
      to open until unlocked. */
  method DoorScenario()
  {
    var normalDoor := new Door();
    assert !normalDoor.isOpen;
    normalDoor.Open();
    assert normalDoor.isOpen;
    normalDoor.Close();
    assert !normalDoor.isOpen;

    var doorWithLock := new LockProtected(normalDoor);
    assert !doorWithLock.Opened() && doorWithLock.locked;
    var refused := doorWithLock.Open();
    assert refused == Fail(DoorLocked) && !doorWithLock.Opened() && doorWithLock.locked;
    doorWithLock.UnLock();
    assert !doorWithLock.Opened() && !doorWithLock.locked;
    var openResult := doorWithLock.Open();
    assert openResult == Pass && doorWithLock.Opened() && !doorWithLock.locked;
    var closed := doorWithLock.Close();
    assert closed == Pass && !doorWithLock.Opened();
    doorWithLock.Lock();
    assert !doorWithLock.Opened() && doorWithLock.locked;
  }
}
