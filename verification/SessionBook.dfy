/** StreamlabsSessionBook (src/core/StreamlabsTikTok.cpp): which Streamlabs session id is open, being
    ended, cut off, ended, or handed out at shutdown.  `Book` is the abstract value the protocol proofs
    use; the class below is the source's object, its vectors changed in place. */
module SessionBook {

  type Id = nat   // only compared; 0 stands for the empty string
  type Endpoint = nat

  const NO_ID: Id := 0

  datatype EndOutcome = Ended | Failed | Cancelled

  datatype StartClaim = StartClaim(busyWith: string, stale: seq<Id>)

  datatype Book = Book(
    openId: Id, openOwner: Endpoint, openName: string,
    ending: seq<Id>, retry: seq<Id>, ended: seq<Id>, handedOut: seq<Id>)

  const EMPTY_BOOK := Book(NO_ID, 0, "", [], [], [], [])

  function Without(s: seq<Id>, id: Id): (r: seq<Id>)
    ensures forall x :: x in r <==> x in s && x != id
  {
    if s == [] then [] else if s[0] == id then Without(s[1..], id) else [s[0]] + Without(s[1..], id)
  }

  function WithLast(s: seq<Id>, id: Id): seq<Id> {
    if id in s then s else s + [id]
  }

  function CloseOpen(b: Book): Book {
    b.(openId := NO_ID, openOwner := 0, openName := "")
  }

  function BusyWith(b: Book, endpoint: Endpoint): string {
    if b.openId == NO_ID || b.openOwner == endpoint then ""
    else if b.openName == "" then "another endpoint" else b.openName
  }

  function ClaimForStart(b: Book, endpoint: Endpoint): (Book, StartClaim) {
    var busy := BusyWith(b, endpoint);
    if busy != "" || b.openId == NO_ID then (b, StartClaim(busy, []))
    else (CloseOpen(b), StartClaim("", [b.openId]))
  }

  function OnStarted(b: Book, id: Id, owner: Endpoint, name: string): Book {
    b.(openId := id, openOwner := owner, openName := name)
  }

  function ReleaseOwner(b: Book, endpoint: Endpoint): (Book, Id) {
    if b.openId == NO_ID || b.openOwner != endpoint then (b, NO_ID)
    else (CloseOpen(b).(ending := WithLast(b.ending, b.openId)), b.openId)
  }

  function BeginEnd(b: Book, id: Id): (Book, bool) {
    if id == NO_ID || id in b.ending || id in b.ended then (b, false)
    else (b.(retry := Without(b.retry, id), ending := b.ending + [id]), true)
  }

  function ReleaseUnadopted(b: Book, id: Id): (Book, bool) {
    if id == NO_ID || b.openId != id then (b, false) else BeginEnd(CloseOpen(b), id)
  }

  function FinishEnd(b: Book, id: Id, outcome: EndOutcome): Book {
    var c := b.(ending := Without(b.ending, id));
    match outcome
    case Ended => c.(retry := Without(b.retry, id), ended := WithLast(b.ended, id))
    case Cancelled => c.(retry := WithLast(b.retry, id))
    case Failed => c
  }

  predicate Eligible(b: Book, id: Id) {
    id != NO_ID && id !in b.ended && id !in b.handedOut
  }

  function AddOne(b: Book, ids: seq<Id>, id: Id): seq<Id> {
    if Eligible(b, id) && id !in ids then ids + [id] else ids
  }

  function AddAll(b: Book, ids: seq<Id>, more: seq<Id>): (r: seq<Id>)
    ensures forall x :: x in r <==> x in ids || (x in more && Eligible(b, x))
    ensures Distinct(ids) ==> Distinct(r)
    decreases |more|
  {
    if more == [] then ids else AddAll(b, AddOne(b, ids, more[0]), more[1..])
  }

  function MarkAll(ending: seq<Id>, ids: seq<Id>): (r: seq<Id>)
    ensures forall x :: x in r <==> x in ending || x in ids
    decreases |ids|
  {
    if ids == [] then ending else MarkAll(WithLast(ending, ids[0]), ids[1..])
  }

  lemma MarkStep(ending: seq<Id>, ids: seq<Id>, i: nat)
    requires i <= |ids|
    ensures MarkAll(ending, ids[i..]) == if i == |ids| then ending else MarkAll(WithLast(ending, ids[i]), ids[i + 1..])
    ensures i == 0 ==> ids[i..] == ids
  {
    assert i < |ids| ==> ids[i..][1..] == ids[i + 1..];
  }

  predicate Distinct(s: seq<Id>) {
    forall i, j :: 0 <= i < j < |s| ==> s[i] != s[j]
  }

  /** The ids still to end at shutdown: cut off, then claimed, then open. */
  function ShutdownIds(b: Book): (ids: seq<Id>)
    ensures Distinct(ids)
    ensures forall x :: x in ids <==> (x in b.retry || x in b.ending || x == b.openId) && Eligible(b, x)
  {
    AddOne(b, AddAll(b, AddAll(b, [], b.retry), b.ending), b.openId)
  }

  function TakeForShutdown(b: Book): (Book, seq<Id>) {
    var ids := ShutdownIds(b);
    (CloseOpen(b).(retry := [], ending := MarkAll(b.ending, ids), handedOut := b.handedOut + ids), ids)
  }

  // ----- laws of the book that no single operation's body states -----

  /** An id handed out at shutdown is refused by every later claim and never handed out again. */
  lemma HandedOutOnce(b: Book, id: Id)
    requires id in TakeForShutdown(b).1
    ensures !BeginEnd(TakeForShutdown(b).0, id).1
    ensures TakeForShutdown(TakeForShutdown(b).0).1 == []
  {
    var c := TakeForShutdown(b).0;
    assert forall x :: x !in ShutdownIds(c);
  }

  /** A claim of an end succeeds exactly once until the claimed end is finished, and never again once it succeeded. */
  lemma ClaimExclusive(b: Book, id: Id)
    requires BeginEnd(b, id).1
    ensures !BeginEnd(BeginEnd(b, id).0, id).1
    ensures forall o: EndOutcome ::
              BeginEnd(FinishEnd(BeginEnd(b, id).0, id, o), id).1 <==> o != Ended
  {
  }

  class StreamlabsSessionBook {
    var openId: Id
    var openOwner: Endpoint
    var openName: string
    var ending: seq<Id>
    var retry: seq<Id>
    var ended: seq<Id>
    var handedOut: seq<Id>

    ghost function Value(): Book
      reads this
    {
      Book(openId, openOwner, openName, ending, retry, ended, handedOut)
    }

    constructor ()
      ensures Value() == EMPTY_BOOK
    {
      openId, openOwner, openName := NO_ID, 0, "";
      ending, retry, ended, handedOut := [], [], [], [];
    }

    static method Contains(v: seq<Id>, id: Id) returns (found: bool)
      ensures found <==> id in v
    {
      for i := 0 to |v|
        invariant id !in v[..i]
      {
        if v[i] == id {
          return true;
        }
      }
      return false;
    }

    static method Erase(v: seq<Id>, id: Id) returns (w: seq<Id>)
      ensures w == Without(v, id)
    {
      w := v;
      var i := 0;
      while i < |w|
        invariant 0 <= i <= |w|
        invariant id !in w[..i]
        invariant w[..i] + Without(w[i..], id) == Without(v, id)
        decreases |w| - i
      {
        assert w[i..][1..] == w[i + 1..];
        if w[i] == id {
          ghost var kept := w[..i];
          w := w[..i] + w[i + 1..];
          assert w[..i] == kept && w[i..] == w[i..][0..];
        } else {
          assert w[..i + 1] == w[..i] + [w[i]];
          i := i + 1;
        }
      }
      assert w[..i] == w && w[i..] == [];
    }

    method ClaimStart(endpoint: Endpoint) returns (claim: StartClaim)
      modifies this
      ensures (Value(), claim) == ClaimForStart(old(Value()), endpoint)
    {
      claim := StartClaim(if openId == NO_ID || openOwner == endpoint then ""
                          else if openName == "" then "another endpoint" else openName, []);
      if claim.busyWith != "" || openId == NO_ID {
        return;
      }
      claim := claim.(stale := [openId]);
      openId, openOwner, openName := NO_ID, 0, "";
    }

    method Started(id: Id, owner: Endpoint, name: string)
      modifies this
      ensures Value() == OnStarted(old(Value()), id, owner, name)
    {
      openId, openOwner, openName := id, owner, name;
    }

    method Release(endpoint: Endpoint) returns (id: Id)
      modifies this
      ensures (Value(), id) == ReleaseOwner(old(Value()), endpoint)
    {
      if openId == NO_ID || openOwner != endpoint {
        return NO_ID;
      }
      id := openId;
      openId, openOwner, openName := NO_ID, 0, "";
      var known := Contains(ending, id);
      if !known {
        ending := ending + [id];
      }
    }

    method Unadopted(id: Id) returns (claimed: bool)
      modifies this
      ensures (Value(), claimed) == ReleaseUnadopted(old(Value()), id)
    {
      if id == NO_ID || openId != id {
        return false;
      }
      openId, openOwner, openName := NO_ID, 0, "";
      claimed := Begin(id);
    }

    method Begin(id: Id) returns (claimed: bool)
      modifies this
      ensures (Value(), claimed) == BeginEnd(old(Value()), id)
    {
      var a := Contains(ending, id);
      var b := Contains(ended, id);
      if id == NO_ID || a || b {
        return false;
      }
      retry := Erase(retry, id);
      ending := ending + [id];
      return true;
    }

    method Finish(id: Id, outcome: EndOutcome)
      modifies this
      ensures Value() == FinishEnd(old(Value()), id, outcome)
    {
      ending := Erase(ending, id);
      if outcome == Ended {
        retry := Erase(retry, id);
        var known := Contains(ended, id);
        if !known {
          ended := ended + [id];
        }
      } else if outcome == Cancelled {
        var known := Contains(retry, id);
        if !known {
          retry := retry + [id];
        }
      }
    }

    /** The `add` closure of take_for_shutdown. */
    method Add(ids: seq<Id>, id: Id) returns (r: seq<Id>)
      ensures r == AddOne(Value(), ids, id)
    {
      var inIds := Contains(ids, id);
      var inEnded := Contains(ended, id);
      var inHanded := Contains(handedOut, id);
      r := if id != NO_ID && !inIds && !inEnded && !inHanded then ids + [id] else ids;
    }

    method Collect(ids: seq<Id>, list: seq<Id>) returns (r: seq<Id>)
      ensures r == AddAll(Value(), ids, list)
    {
      r := ids;
      for i := 0 to |list|
        invariant AddAll(Value(), r, list[i..]) == AddAll(Value(), ids, list)
      {
        assert list[i..][1..] == list[i + 1..];
        r := Add(r, list[i]);
      }
    }

    /** The synchronous ends own `ids` from now on (the last loop of take_for_shutdown). */
    method HandOut(ids: seq<Id>)
      modifies `ending, `handedOut
      ensures ending == MarkAll(old(ending), ids)
      ensures handedOut == old(handedOut) + ids
    {
      hide MarkAll;
      MarkStep(ending, ids, 0);
      for i := 0 to |ids|
        invariant MarkAll(ending, ids[i..]) == MarkAll(old(ending), ids)
        invariant handedOut == old(handedOut) + ids[..i]
      {
        MarkStep(ending, ids, i);
        assert ids[..i + 1] == ids[..i] + [ids[i]];
        var known := Contains(ending, ids[i]);
        if !known {
          ending := ending + [ids[i]];
        }
        handedOut := handedOut + [ids[i]];
      }
      MarkStep(ending, ids, |ids|);
    }

    method Take() returns (ids: seq<Id>)
      modifies this
      ensures (Value(), ids) == TakeForShutdown(old(Value()))
    {
      ids := Collect([], retry);
      ids := Collect(ids, ending);
      ids := Add(ids, openId);
      openId, openOwner, openName := NO_ID, 0, "";
      retry := [];
      HandOut(ids);
    }
  }
}
