/** The Proxy pattern: a phone line stands in for a friend and calls the friend the
    first time someone wants to talk. */
module Proxy {

  /** The real subject; talking to it has no visible effect. */
  class Friend {
    constructor ()
    {
    }

    method Talk()
    {
    }
  }

  /** The proxy: the real friend is created lazily, at most once. */
  class FriendOverPhone {
    var friend: Friend?

    constructor ()
      ensures !IsConnectedToFriend()
    {
      friend := null;
    }

    function IsConnectedToFriend(): (r: bool)
      reads this
      ensures r <==> friend != null
    {
      friend != null
    }

    /** Calls the friend if not yet connected, then talks to the same friend from then on. */
    method Talk()
      modifies this
      ensures IsConnectedToFriend()
      ensures old(friend) != null ==> friend == old(friend)
      ensures old(friend) == null ==> fresh(friend)
    {
      if !IsConnectedToFriend() {
        CallFriend();
      }
      friend.Talk();
    }

    method CallFriend()
      modifies this
      ensures friend != null && fresh(friend)
    {
      friend := new Friend();
    }
  }

  /** The example scenario: not connected until the first conversation; later ones reuse
      the same connection. */
  method PhoneScenario()
  {
    var phone := new FriendOverPhone();
    assert !phone.IsConnectedToFriend();
    phone.Talk();
    assert phone.IsConnectedToFriend();
    var first := phone.friend;
    phone.Talk();
    assert phone.friend == first;
  }
}
