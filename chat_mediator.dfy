/** The multi-user chat mediator: users register with the mediator, and a
    message sent through it reaches every registration except those of the
    sender, compared by reference, in registration order. */
module ChatMediator {

  /** The registrations that receive a message from `sender`. */
  function Recipients(users: seq<ChatUser>, sender: ChatUser): seq<ChatUser>
  {
    if users == [] then []
    else (if users[0] != sender then [users[0]] else []) + Recipients(users[1..], sender)
  }

  /** Each registration other than the sender's gets one copy, in order:
      recipients over a concatenation are the recipients of each part. */
  lemma {:induction false} RecipientsAppend(a: seq<ChatUser>, b: seq<ChatUser>, sender: ChatUser)
    ensures Recipients(a + b, sender) == Recipients(a, sender) + Recipients(b, sender)
  {
    if a == [] {
      assert a + b == b;
    } else {
      assert (a + b)[0] == a[0] && (a + b)[1..] == a[1..] + b;
      RecipientsAppend(a[1..], b, sender);
    }
  }

  /** The sender never receives its own message; every other user receives
      exactly as many copies as it has registrations. */
  lemma {:induction false} RecipientsCount(users: seq<ChatUser>, sender: ChatUser)
    ensures multiset(Recipients(users, sender))[sender] == 0
    ensures forall u | u != sender :: multiset(Recipients(users, sender))[u] == multiset(users)[u]
  {
    if users != [] {
      RecipientsCount(users[1..], sender);
      assert users == [users[0]] + users[1..];
    }
  }

  /** A sender that is not registered reaches every registration. */
  lemma {:induction false} UnregisteredSenderReachesAll(users: seq<ChatUser>, sender: ChatUser)
    requires sender !in users
    ensures Recipients(users, sender) == users
  {
    if users != [] {
      UnregisteredSenderReachesAll(users[1..], sender);
    }
  }

  class ChatMediatorImpl {
    var users: seq<ChatUser>

    constructor ()
      ensures users == []
    {
      users := [];
    }

    /** Appends; a user may be registered more than once. */
    method AddUser(user: ChatUser)
      modifies this
      ensures users == old(users) + [user]
    {
      users := users + [user];
    }

    /** Delivers `msg` to each registration that is not the sender, in
        registration order; returns the users it called `receive` on. */
    method SendMessage(msg: string, sender: ChatUser) returns (delivered: seq<ChatUser>)
      ensures delivered == Recipients(users, sender)
    {
      delivered := [];
      for i := 0 to |users|
        invariant delivered == Recipients(users[..i], sender)
      {
        assert users[..i + 1] == users[..i] + [users[i]];
        RecipientsAppend(users[..i], [users[i]], sender);
        assert Recipients([users[i]], sender) == (if users[i] != sender then [users[i]] else []) by {
          assert [users[i]][1..] == [];
        }
        if users[i] != sender {
          delivered := delivered + [users[i]];
        }
      }
      assert users[..|users|] == users;
    }
  }

  class ChatUser {
    const mediator: ChatMediatorImpl
    const name: string

    constructor (mediator: ChatMediatorImpl, name: string)
      ensures this.mediator == mediator && this.name == name
    {
      this.mediator := mediator;
      this.name := name;
    }

    /** Sends through the mediator with itself as the sender. */
    method Send(msg: string) returns (delivered: seq<ChatUser>)
      ensures delivered == Recipients(mediator.users, this)
    {
      delivered := mediator.SendMessage(msg, this);
    }
  }

  function Names(users: seq<ChatUser>): seq<string>
    reads set u | u in users
  {
    seq(|users|, i requires 0 <= i < |users| reads users => users[i].name)
  }

  /** The demonstration: Robert's message reaches John and Alice; John's
      reaches Robert and Alice. */
  method MultiUsersChatDemo() returns (fromRobert: seq<string>, fromJohn: seq<string>)
    ensures fromRobert == ["John", "Alice"]
    ensures fromJohn == ["Robert", "Alice"]
  {
    var mediator := new ChatMediatorImpl();
    var robert := new ChatUser(mediator, "Robert");
    var john := new ChatUser(mediator, "John");
    var alice := new ChatUser(mediator, "Alice");
    mediator.AddUser(robert);
    mediator.AddUser(john);
    mediator.AddUser(alice);
    var users := [robert, john, alice];
    assert mediator.users == users;
    assert users[1..] == [john, alice] && users[1..][1..] == [alice] && [alice][1..] == [];
    var r := robert.Send("Hello Everyone!");
    assert Recipients(users, robert) == Recipients([john, alice], robert);
    assert Recipients([john, alice], robert) == [john] + Recipients([alice], robert);
    assert r == [john, alice];
    var j := john.Send("Hi Robert!");
    assert Recipients(users, john) == [robert] + Recipients([john, alice], john);
    assert Recipients([john, alice], john) == Recipients([alice], john);
    assert j == [robert, alice];
    fromRobert := Names(r);
    fromJohn := Names(j);
  }
}
