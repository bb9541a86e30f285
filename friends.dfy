/** Friend requests between users (users/models.py, users/views.py). A
    request goes from pending to accepted or to rejected and no further;
    accepting makes the two users friends on both sides, and removing a
    friend undoes both sides. `friends` is a symmetrical many-to-many
    relation on users, kept as a set of ordered pairs holding both
    directions. Requests are kept in insertion order; a request's primary
    key is its position plus one. */
module Friends {
  import opened Common

  datatype Status = Pending | Accepted | Rejected

  /** A new request defaults to pending. */
  datatype FriendRequest = FriendRequest(sender: UserId, receiver: UserId, status: Status)

  datatype User = User(id: UserId, email: string)

  /** The three tables: users, the friendship relation and the requests. */
  datatype Graph = Graph(users: seq<User>, friends: set<(UserId, UserId)>, requests: seq<FriendRequest>)

  // ---- the declared constraints ----------------------------------------------

  /** The relation holds each friendship in both directions. */
  predicate Symmetric(f: set<(UserId, UserId)>)
  {
    forall p :: p in f ==> (p.1, p.0) in f
  }

  /** `email = EmailField(unique=True)`, and user ids are keys. */
  predicate UniqueUsers(us: seq<User>)
  {
    forall i, j :: 0 <= i < j < |us| ==> us[i].email != us[j].email && us[i].id != us[j].id
  }

  /** `unique_together = ['sender', 'receiver']`. */
  predicate UniquePairs(rs: seq<FriendRequest>)
  {
    forall i, j :: 0 <= i < j < |rs| ==> (rs[i].sender, rs[i].receiver) != (rs[j].sender, rs[j].receiver)
  }

  predicate Valid(g: Graph)
  {
    Symmetric(g.friends) && UniqueUsers(g.users) && UniquePairs(g.requests)
  }

  // ---- lookups ---------------------------------------------------------------

  /** `User.objects.get(email=email)`: the user with that email, or None
      (DoesNotExist); a missing form field matches nobody. */
  function FindByEmail(us: seq<User>, email: Option<string>): (r: Option<User>)
    ensures r.Some? ==> r.value in us && email == Some(r.value.email)
    ensures r.None? ==> forall i :: 0 <= i < |us| ==> email != Some(us[i].email)
  {
    if email.None? || us == [] then None
    else if us[0].email == email.value then Some(us[0])
    else FindByEmail(us[1..], email)
  }

  /** With unique emails the user found is the only one with that email. */
  lemma FindByEmailUnique(us: seq<User>, email: string, u: User)
    requires UniqueUsers(us) && u in us && u.email == email
    ensures FindByEmail(us, Some(email)) == Some(u)
  {
    var r := FindByEmail(us, Some(email));
    var k :| 0 <= k < |us| && us[k] == u;
    if r.Some? {
      var m :| 0 <= m < |us| && us[m] == r.value;
      assert m == k;
    }
  }

  predicate IsUser(us: seq<User>, id: UserId)
  {
    exists i :: 0 <= i < |us| && us[i].id == id
  }

  /** A pending request between `a` and `b`, in either direction. */
  predicate PendingBetween(rs: seq<FriendRequest>, a: UserId, b: UserId)
  {
    exists i :: 0 <= i < |rs| && rs[i].status == Pending
      && ((rs[i].sender == a && rs[i].receiver == b) || (rs[i].sender == b && rs[i].receiver == a))
  }

  /** Some request from `a` to `b`, whatever its status. */
  predicate HasRequest(rs: seq<FriendRequest>, a: UserId, b: UserId)
  {
    exists i :: 0 <= i < |rs| && rs[i].sender == a && rs[i].receiver == b
  }

  // ---- add_friend ------------------------------------------------------------

  /** What `add_friend` does: a GET only redirects; an unknown email, one's
      own email, an existing friend or a pending request in either
      direction each stop with a message; otherwise a pending request is
      created, which the (sender, receiver) uniqueness constraint refuses
      when an earlier, no longer pending request from the requester to
      that user exists. */
  datatype AddOutcome =
    | NotPost | UnknownEmail | SelfRequest | AlreadyFriends | AlreadyPending
    | IntegrityError | Sent(receiver: UserId)

  function AddDecision(g: Graph, requester: UserId, isPost: bool, email: Option<string>): AddOutcome
  {
    if !isPost then NotPost
    else match FindByEmail(g.users, email)
      case None => UnknownEmail
      case Some(friend) =>
        if friend.id == requester then SelfRequest
        else if (requester, friend.id) in g.friends then AlreadyFriends
        else if PendingBetween(g.requests, requester, friend.id) then AlreadyPending
        else if HasRequest(g.requests, requester, friend.id) then IntegrityError
        else Sent(friend.id)
  }

  /** The tables after `add_friend`: one pending request appended when it
      was sent, nothing changed otherwise. */
  function AfterAdd(g: Graph, requester: UserId, outcome: AddOutcome): Graph
  {
    if outcome.Sent? then g.(requests := g.requests + [FriendRequest(requester, outcome.receiver, Pending)])
    else g
  }

  /** `u` owns the email and passes every guard of `add_friend`. */
  predicate Sendable(g: Graph, requester: UserId, email: Option<string>, u: User)
  {
    u in g.users && email == Some(u.email) && u.id != requester
    && (requester, u.id) !in g.friends && !PendingBetween(g.requests, requester, u.id)
    && !HasRequest(g.requests, requester, u.id)
  }

  /** A request is sent exactly when the email belongs to a user passing
      every guard, and then to that user. */
  lemma AddSentIff(g: Graph, requester: UserId, isPost: bool, email: Option<string>)
    requires Valid(g)
    ensures AddDecision(g, requester, isPost, email).Sent? <==>
      isPost && exists u :: Sendable(g, requester, email, u)
    ensures AddDecision(g, requester, isPost, email).Sent? ==>
      Some(User(AddDecision(g, requester, isPost, email).receiver, email.value)) == FindByEmail(g.users, email)
  {
    var r := FindByEmail(g.users, email);
    if r.Some? {
      assert AddDecision(g, requester, isPost, email).Sent? ==> Sendable(g, requester, email, r.value);
    }
    if isPost && exists u :: Sendable(g, requester, email, u) {
      var u :| Sendable(g, requester, email, u);
      FindByEmailUnique(g.users, u.email, u);
    }
  }

  /** The guards: nothing is sent to oneself, to an existing friend, while
      a request is pending in either direction, or to an unknown email. */
  lemma AddGuards(g: Graph, requester: UserId, isPost: bool, email: Option<string>, u: User)
    requires Valid(g) && u in g.users && email == Some(u.email)
    ensures u.id == requester ==> AddDecision(g, requester, isPost, email) != Sent(u.id)
    ensures (requester, u.id) in g.friends ==> !AddDecision(g, requester, isPost, email).Sent?
    ensures PendingBetween(g.requests, requester, u.id) || PendingBetween(g.requests, u.id, requester)
      ==> !AddDecision(g, requester, isPost, email).Sent?
    ensures isPost && u.id == requester ==> AddDecision(g, requester, isPost, email) == SelfRequest
  {
    FindByEmailUnique(g.users, u.email, u);
  }

  /** At most one request per ordered pair: once any request from `a` to
      `b` exists, `add_friend` never sends another one, and a re-request
      after a rejection (with no pending request left between the two and
      no friendship) reaches the database constraint. */
  lemma NoSecondRequest(g: Graph, a: UserId, b: User, isPost: bool)
    requires Valid(g) && b in g.users && b.id != a && HasRequest(g.requests, a, b.id)
    ensures AddDecision(g, a, isPost, Some(b.email)) != Sent(b.id)
    ensures isPost && (a, b.id) !in g.friends && !PendingBetween(g.requests, a, b.id)
      ==> AddDecision(g, a, isPost, Some(b.email)) == IntegrityError
  {
    FindByEmailUnique(g.users, b.email, b);
  }

  /** The rejected-then-asked-again case written out: one rejected request
      from user 1 to user 2. */
  lemma RequestAfterRejection()
    ensures var g := Graph([User(1, "a@x.pl"), User(2, "b@x.pl")], {}, [FriendRequest(1, 2, Rejected)]);
      Valid(g) && AddDecision(g, 1, true, Some("b@x.pl")) == IntegrityError
  {
    var g := Graph([User(1, "a@x.pl"), User(2, "b@x.pl")], {}, [FriendRequest(1, 2, Rejected)]);
    assert g.users[0].email != g.users[1].email;
    assert FindByEmail(g.users, Some("b@x.pl")) == Some(User(2, "b@x.pl")) by {
      assert g.users[0].email[0] != "b@x.pl"[0];
      assert g.users[1..] == [User(2, "b@x.pl")];
    }
    assert HasRequest(g.requests, 1, 2) by { assert g.requests[0].sender == 1; }
  }

  /** A sent request keeps the tables valid and is pending. */
  lemma AddPreservesValid(g: Graph, requester: UserId, isPost: bool, email: Option<string>)
    requires Valid(g)
    ensures Valid(AfterAdd(g, requester, AddDecision(g, requester, isPost, email)))
  {
    var o := AddDecision(g, requester, isPost, email);
    if o.Sent? {
      var rs := g.requests + [FriendRequest(requester, o.receiver, Pending)];
      forall i, j | 0 <= i < j < |rs|
        ensures (rs[i].sender, rs[i].receiver) != (rs[j].sender, rs[j].receiver)
      {
        if j == |g.requests| {
          assert !HasRequest(g.requests, requester, o.receiver);
          assert rs[i] == g.requests[i];
        }
      }
    }
  }

  // ---- accept and reject -----------------------------------------------------

  /** `get_object_or_404(FriendRequest, id=pk, receiver=requester,
      status='pending')` finds the request. */
  predicate CanReview(g: Graph, requester: UserId, pk: nat)
  {
    1 <= pk <= |g.requests| && g.requests[pk - 1].receiver == requester
    && g.requests[pk - 1].status == Pending
  }

  function SetStatus(g: Graph, pk: nat, s: Status): Graph
    requires 1 <= pk <= |g.requests|
  {
    g.(requests := g.requests[pk - 1 := g.requests[pk - 1].(status := s)])
  }

  /** `accept_friend_request`: the request accepted and the two users made
      friends on both sides; nothing changes on a 404. */
  function AfterAccept(g: Graph, requester: UserId, pk: nat): Graph
  {
    if CanReview(g, requester, pk) then
      var sender := g.requests[pk - 1].sender;
      SetStatus(g, pk, Accepted).(friends := g.friends + {(requester, sender), (sender, requester)})
    else g
  }

  /** `reject_friend_request`: the request rejected, friendships kept. */
  function AfterReject(g: Graph, requester: UserId, pk: nat): Graph
  {
    if CanReview(g, requester, pk) then SetStatus(g, pk, Rejected) else g
  }

  /** Accepting a request addressed to the requester makes sender and
      receiver friends both ways, sets that request (only) to accepted and
      keeps every other friendship; otherwise nothing changes. */
  lemma AcceptEffect(g: Graph, requester: UserId, pk: nat)
    ensures var h := AfterAccept(g, requester, pk);
      CanReview(g, requester, pk) ==>
        var s := g.requests[pk - 1].sender;
        (requester, s) in h.friends && (s, requester) in h.friends && g.friends <= h.friends
        && h.friends - g.friends <= {(requester, s), (s, requester)}
        && |h.requests| == |g.requests| && h.requests[pk - 1].status == Accepted
        && h.requests[pk - 1].sender == s && h.requests[pk - 1].receiver == requester
        && (forall i :: 0 <= i < |g.requests| && i != pk - 1 ==> h.requests[i] == g.requests[i])
        && h.users == g.users
    ensures !CanReview(g, requester, pk) ==> AfterAccept(g, requester, pk) == g
  {
  }

  /** Rejecting sets that request (only) to rejected and never touches the
      friendships; otherwise nothing changes. */
  lemma RejectEffect(g: Graph, requester: UserId, pk: nat)
    ensures AfterReject(g, requester, pk).friends == g.friends
    ensures AfterReject(g, requester, pk).users == g.users
    ensures var h := AfterReject(g, requester, pk);
      CanReview(g, requester, pk) ==>
        |h.requests| == |g.requests| && h.requests[pk - 1].status == Rejected
        && h.requests[pk - 1].sender == g.requests[pk - 1].sender && h.requests[pk - 1].receiver == requester
        && (forall i :: 0 <= i < |g.requests| && i != pk - 1 ==> h.requests[i] == g.requests[i])
    ensures !CanReview(g, requester, pk) ==> AfterReject(g, requester, pk) == g
  {
  }

  lemma ReviewPreservesValid(g: Graph, requester: UserId, pk: nat)
    requires Valid(g)
    ensures Valid(AfterAccept(g, requester, pk)) && Valid(AfterReject(g, requester, pk))
  {
    if CanReview(g, requester, pk) {
      var rs := g.requests[pk - 1 := g.requests[pk - 1].(status := Accepted)];
      var rj := g.requests[pk - 1 := g.requests[pk - 1].(status := Rejected)];
      assert forall i :: 0 <= i < |rs| ==> (rs[i].sender, rs[i].receiver) == (g.requests[i].sender, g.requests[i].receiver);
      assert forall i :: 0 <= i < |rj| ==> (rj[i].sender, rj[i].receiver) == (g.requests[i].sender, g.requests[i].receiver);
    }
  }

  // ---- remove_friend ---------------------------------------------------------

  /** `remove_friend`: 404 when no user has the id; the friendship removed
      on both sides when it exists; nothing otherwise. */
  function AfterRemove(g: Graph, requester: UserId, friendId: UserId): Graph
  {
    if IsUser(g.users, friendId) && (requester, friendId) in g.friends then
      g.(friends := g.friends - {(requester, friendId), (friendId, requester)})
    else g
  }

  /** Afterwards the two are friends in neither direction, and exactly
      those two pairs were removed. */
  lemma RemoveEffect(g: Graph, requester: UserId, friendId: UserId)
    requires Valid(g) && IsUser(g.users, friendId)
    ensures var h := AfterRemove(g, requester, friendId);
      (requester, friendId) !in h.friends && (friendId, requester) !in h.friends
      && h.friends == g.friends - {(requester, friendId), (friendId, requester)}
      && h.users == g.users && h.requests == g.requests
    ensures Valid(AfterRemove(g, requester, friendId))
  {
    if (requester, friendId) !in g.friends {
      assert (friendId, requester) !in g.friends;
    }
  }

  lemma RemoveNotFound(g: Graph, requester: UserId, friendId: UserId)
    requires !IsUser(g.users, friendId)
    ensures AfterRemove(g, requester, friendId) == g
  {
  }

  // ---- the state machine -----------------------------------------------------

  /** Status moves only out of pending: accepted and rejected are final,
      whichever operation runs. */
  predicate OnlyFromPending(before: seq<FriendRequest>, after: seq<FriendRequest>)
  {
    |before| <= |after|
    && forall i :: 0 <= i < |before| ==>
      after[i].sender == before[i].sender && after[i].receiver == before[i].receiver
      && (after[i].status != before[i].status ==> before[i].status == Pending)
  }

  lemma StatusMonotone(g: Graph, requester: UserId, pk: nat, isPost: bool, email: Option<string>, friendId: UserId)
    ensures OnlyFromPending(g.requests, AfterAccept(g, requester, pk).requests)
    ensures OnlyFromPending(g.requests, AfterReject(g, requester, pk).requests)
    ensures OnlyFromPending(g.requests, AfterAdd(g, requester, AddDecision(g, requester, isPost, email)).requests)
    ensures OnlyFromPending(g.requests, AfterRemove(g, requester, friendId).requests)
  {
  }

  // ---- the tables as objects -------------------------------------------------

  class SocialGraph {
    var users: seq<User>
    var friends: set<(UserId, UserId)>
    var requests: seq<FriendRequest>

    function State(): Graph
      reads this
    {
      Graph(users, friends, requests)
    }

    constructor(us: seq<User>)
      requires UniqueUsers(us)
      ensures State() == Graph(us, {}, []) && Valid(State())
    {
      users, friends, requests := us, {}, [];
    }

    method AddFriend(requester: UserId, isPost: bool, email: Option<string>) returns (outcome: AddOutcome)
      requires Valid(State())
      modifies this
      ensures outcome == AddDecision(old(State()), requester, isPost, email)
      ensures State() == AfterAdd(old(State()), requester, outcome) && Valid(State())
    {
      AddPreservesValid(State(), requester, isPost, email);
      if !isPost {
        return NotPost;
      }
      var found := FindByEmail(users, email);
      if found.None? {
        return UnknownEmail;
      }
      var friend := found.value.id;
      if friend == requester {
        outcome := SelfRequest;
      } else if (requester, friend) in friends {
        outcome := AlreadyFriends;
      } else if PendingBetween(requests, requester, friend) {
        outcome := AlreadyPending;
      } else if HasRequest(requests, requester, friend) {
        outcome := IntegrityError;
      } else {
        requests := requests + [FriendRequest(requester, friend, Pending)];
        outcome := Sent(friend);
      }
    }

    method AcceptFriendRequest(requester: UserId, pk: nat) returns (found: bool)
      requires Valid(State())
      modifies this
      ensures found == CanReview(old(State()), requester, pk)
      ensures State() == AfterAccept(old(State()), requester, pk) && Valid(State())
    {
      ReviewPreservesValid(State(), requester, pk);
      found := 1 <= pk <= |requests| && requests[pk - 1].receiver == requester
        && requests[pk - 1].status == Pending;
      if found {
        var sender := requests[pk - 1].sender;
        requests := requests[pk - 1 := requests[pk - 1].(status := Accepted)];
        friends := friends + {(requester, sender)};
        friends := friends + {(sender, requester)};
      }
    }

    method RejectFriendRequest(requester: UserId, pk: nat) returns (found: bool)
      requires Valid(State())
      modifies this
      ensures found == CanReview(old(State()), requester, pk)
      ensures State() == AfterReject(old(State()), requester, pk) && Valid(State())
    {
      ReviewPreservesValid(State(), requester, pk);
      found := 1 <= pk <= |requests| && requests[pk - 1].receiver == requester
        && requests[pk - 1].status == Pending;
      if found {
        requests := requests[pk - 1 := requests[pk - 1].(status := Rejected)];
      }
    }

    method RemoveFriend(requester: UserId, friendId: UserId) returns (found: bool)
      requires Valid(State())
      modifies this
      ensures found == IsUser(old(users), friendId)
      ensures State() == AfterRemove(old(State()), requester, friendId) && Valid(State())
    {
      found := IsUser(users, friendId);
      if found {
        RemoveEffect(State(), requester, friendId);
        if (requester, friendId) in friends {
          friends := friends - {(requester, friendId)};
          friends := friends - {(friendId, requester)};
        }
      }
    }
  }
}
