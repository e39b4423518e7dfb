/**
  The peer index: a bag of entries stamped with a counter, kept to the 32 most recently seen. Told by
  its history it is a list of keys, newest first; that list is what the menus show.
*/
module PeerIndex {
  import opened Wire

  const MAX_PEERS := 32
  const MAX_ICON_TILES := 18
  const SEQ_MAX := 0xFFFF_FFFF

  type Key = nat
  type App = nat

  datatype Peer = Peer(key: Key, app: App, seqNo: nat)

  // ----- The history, as a list of keys -----

  datatype Operation = Ensure(key: Key, app: App) | Touch(key: Key) | Forget(key: Key)

  function Without(keys: seq<Key>, key: Key): (rest: seq<Key>)
    ensures |rest| <= |keys|
  {
    if keys == [] then []
    else
      var rest := Without(keys[..|keys| - 1], key);
      if keys[|keys| - 1] == key then rest else rest + [keys[|keys| - 1]]
  }

  function FirstFew<T>(s: seq<T>, n: nat): seq<T> {
    s[..Min(|s|, n)]
  }

  function See(keys: seq<Key>, key: Key): seq<Key> {
    FirstFew([key] + Without(keys, key), MAX_PEERS)
  }

  function Apply(keys: seq<Key>, op: Operation): seq<Key> {
    match op
    case Ensure(key, _) => See(keys, key)
    case Touch(key) => if key in keys then See(keys, key) else keys
    case Forget(key) => Without(keys, key)
  }

  function Recent(ops: seq<Operation>): seq<Key> {
    if ops == [] then [] else Apply(Recent(ops[..|ops| - 1]), ops[|ops| - 1])
  }

  lemma {:induction false} WithoutMembers(keys: seq<Key>, key: Key, k: Key)
    ensures k in Without(keys, key) <==> k in keys && k != key
  {
    if keys != [] {
      WithoutMembers(keys[..|keys| - 1], key, k);
      assert keys == keys[..|keys| - 1] + [keys[|keys| - 1]];
    }
  }

  predicate NoRepeats(keys: seq<Key>) {
    forall i, j :: 0 <= i < j < |keys| ==> keys[i] != keys[j]
  }

  lemma {:induction false} WithoutKeepsNoRepeats(keys: seq<Key>, key: Key)
    requires NoRepeats(keys)
    ensures NoRepeats(Without(keys, key))
    ensures key in keys ==> |Without(keys, key)| < |keys|
  {
    if keys != [] {
      WithoutKeepsNoRepeats(keys[..|keys| - 1], key);
      WithoutMembers(keys[..|keys| - 1], key, keys[|keys| - 1]);
      assert keys == keys[..|keys| - 1] + [keys[|keys| - 1]];
    }
  }

  /** The list holds no key twice, never more than 32, and the key just seen first. */
  lemma {:induction false} RecentIsAList(ops: seq<Operation>)
    ensures NoRepeats(Recent(ops)) && |Recent(ops)| <= MAX_PEERS
    ensures ops != [] && ops[|ops| - 1].Ensure? ==> Recent(ops) != [] && Recent(ops)[0] == ops[|ops| - 1].key
  {
    if ops != [] {
      RecentIsAList(ops[..|ops| - 1]);
      var keys, key := Recent(ops[..|ops| - 1]), ops[|ops| - 1].key;
      WithoutKeepsNoRepeats(keys, key);
      WithoutMembers(keys, key, key);
    }
  }

  lemma {:induction false} WithoutConcat(a: seq<Key>, b: seq<Key>, key: Key)
    ensures Without(a + b, key) == Without(a, key) + Without(b, key)
    decreases |b|
  {
    if b == [] {
      assert a + b == a;
    } else {
      assert (a + b)[..|a + b| - 1] == a + b[..|b| - 1];
      WithoutConcat(a, b[..|b| - 1], key);
    }
  }

  /** The other keys seen in some operations. */
  function OthersSeen(ops: seq<Operation>, key: Key): set<Key> {
    if ops == [] then {}
    else
      var op := ops[|ops| - 1];
      OthersSeen(ops[..|ops| - 1], key) + if op.Forget? || op.key == key then {} else {op.key}
  }

  predicate Forgotten(ops: seq<Operation>, key: Key) {
    exists i :: 0 <= i < |ops| && ops[i] == Forget(key)
  }

  /** `keys` has `key` behind `front`, and only `seen` keys in front. */
  ghost predicate Behind(keys: seq<Key>, key: Key, front: seq<Key>, seen: set<Key>) {
    && front + [key] <= keys
    && NoRepeats(keys) && forall k :: k in front ==> k in seen
  }

  lemma {:induction false} NoMoreThanSeen(front: seq<Key>, seen: set<Key>)
    requires NoRepeats(front) && forall k :: k in front ==> k in seen
    ensures |front| <= |seen|
    decreases |front|
  {
    if front != [] {
      var k := front[|front| - 1];
      NoMoreThanSeen(front[..|front| - 1], seen - {k});
    }
  }

  lemma WithoutAround(front: seq<Key>, key: Key, back: seq<Key>, other: Key)
    requires other != key
    ensures Without(front + [key] + back, other) == Without(front, other) + [key] + Without(back, other)
  {
    WithoutConcat(front + [key], back, other);
    WithoutConcat(front, [key], other);
    assert Without([key], other) == [key];
  }

  lemma SeeingAnother(keys: seq<Key>, key: Key, front: seq<Key>, seen: set<Key>, other: Key) returns (after: seq<Key>)
    requires Behind(keys, key, front, seen) && other != key && |seen + {other}| < MAX_PEERS
    ensures Behind(See(keys, other), key, after, seen + {other})
  {
    after := [other] + Without(front, other);
    var back := keys[|front| + 1..];
    assert keys == front + [key] + back;
    WithoutAround(front, key, back, other);
    forall k ensures k in after ==> k in seen + {other} {
      WithoutMembers(front, other, k);
    }
    SeenHasNoRepeats(keys, other);
    FirstFewKeepsFront([other] + Without(keys, other), key, after, Without(back, other), seen + {other});
  }

  /** A list that is not cut before `key`. */
  lemma FirstFewKeepsFront(whole: seq<Key>, key: Key, front: seq<Key>, back: seq<Key>, seen: set<Key>)
    requires whole == front + [key] + back && NoRepeats(whole)
    requires |seen| < MAX_PEERS && forall k :: k in front ==> k in seen
    ensures Behind(FirstFew(whole, MAX_PEERS), key, front, seen)
  {
    assert NoRepeats(front) by { assert front <= whole; }
    NoMoreThanSeen(front, seen);
  }

  lemma SeenHasNoRepeats(keys: seq<Key>, key: Key)
    requires NoRepeats(keys)
    ensures NoRepeats([key] + Without(keys, key))
  {
    WithoutKeepsNoRepeats(keys, key);
    WithoutMembers(keys, key, key);
  }

  lemma ForgettingAnother(keys: seq<Key>, key: Key, front: seq<Key>, seen: set<Key>, other: Key)
    requires Behind(keys, key, front, seen) && other != key
    ensures Behind(Without(keys, other), key, Without(front, other), seen)
  {
    assert keys == front + [key] + keys[|front| + 1..];
    WithoutAround(front, key, keys[|front| + 1..], other);
    WithoutKeepsNoRepeats(keys, other);
    forall k ensures k in Without(front, other) ==> k in seen {
      WithoutMembers(front, other, k);
    }
  }

  lemma SeeingItAgain(keys: seq<Key>, key: Key, seen: set<Key>)
    requires NoRepeats(keys)
    ensures Behind(See(keys, key), key, [], seen)
  {
    WithoutKeepsNoRepeats(keys, key);
    WithoutMembers(keys, key, key);
  }

  function ApplyAll(keys: seq<Key>, ops: seq<Operation>): seq<Key> {
    if ops == [] then keys else Apply(ApplyAll(keys, ops[..|ops| - 1]), ops[|ops| - 1])
  }

  lemma {:induction false} RecentGoesOn(before: seq<Operation>, since: seq<Operation>)
    ensures Recent(before + since) == ApplyAll(Recent(before), since)
    decreases |since|
  {
    if since == [] {
      assert before + since == before;
    } else {
      RecentGoesOn(before, since[..|since| - 1]);
      assert (before + since)[..|before + since| - 1] == before + since[..|since| - 1];
    }
  }

  lemma {:induction false} StaysBehindAll(keys: seq<Key>, key: Key, since: seq<Operation>) returns (front: seq<Key>)
    requires Behind(keys, key, [], {}) && !Forgotten(since, key) && |OthersSeen(since, key)| < MAX_PEERS
    ensures Behind(ApplyAll(keys, since), key, front, OthersSeen(since, key))
    decreases |since|
  {
    front := [];
    if since != [] {
      var init, op := since[..|since| - 1], since[|since| - 1];
      assert !Forgotten(init, key) by { assert forall i :: 0 <= i < |init| ==> init[i] == since[i]; }
      FewerIfSubset(OthersSeen(init, key), OthersSeen(since, key));
      front := StaysBehindAll(keys, key, init);
      front := StaysBehind(ApplyAll(keys, init), key, front, OthersSeen(init, key), op);
    }
  }

  /** The operation sees `key`: it is ensured, or touched and there. */
  predicate Sees(keys: seq<Key>, op: Operation, key: Key) {
    op.key == key && (op.Ensure? || (op.Touch? && key in keys))
  }

  /**
    A key once seen, whether ensured or touched, is in the list until it is forgotten or 32 others have been seen
    since, and only they are in front of it.
  */
  lemma StaysWhileRecent(before: seq<Operation>, op: Operation, since: seq<Operation>) returns (front: seq<Key>)
    requires Sees(Recent(before), op, op.key)
    requires !Forgotten(since, op.key) && |OthersSeen(since, op.key)| < MAX_PEERS
    ensures op.key in Recent(before + [op] + since)
    ensures Behind(Recent(before + [op] + since), op.key, front, OthersSeen(since, op.key))
  {
    var seen := before + [op];
    RecentIsAList(before);
    assert seen[..|seen| - 1] == before;
    SeeingItAgain(Recent(before), op.key, {});
    RecentGoesOn(seen, since);
    front := StaysBehindAll(Recent(seen), op.key, since);
    BehindIsIn(Recent(seen + since), op.key, front, OthersSeen(since, op.key));
  }

  /** `keys` with the entry at `at` taken out, the others in their order. */
  function CutOut(keys: seq<Key>, at: nat): seq<Key>
    requires at < |keys|
  {
    keys[..at] + keys[at + 1..]
  }

  lemma {:induction false} WithoutIsCutOut(keys: seq<Key>, at: nat)
    requires NoRepeats(keys) && at < |keys|
    ensures Without(keys, keys[at]) == CutOut(keys, at)
  {
    var last := |keys| - 1;
    if at == last {
      NothingToForget(keys[..last], keys[at]);
      assert CutOut(keys, at) == keys[..last];
    } else {
      WithoutIsCutOut(keys[..last], at);
      assert CutOut(keys, at) == CutOut(keys[..last], at) + [keys[last]];
    }
  }

  /**
    After every history: a touch of a known key, or ensuring it again, brings it to the front, the others behind
    it in their order; forgetting it takes it out and leaves the others in their order.
  */
  lemma KnownKeyMoves(ops: seq<Operation>, at: nat, app: App)
    requires at < |Recent(ops)|
    ensures var keys := Recent(ops);
            && Recent(ops + [Touch(keys[at])]) == [keys[at]] + CutOut(keys, at)
            && Recent(ops + [Ensure(keys[at], app)]) == [keys[at]] + CutOut(keys, at)
            && Recent(ops + [Forget(keys[at])]) == CutOut(keys, at)
  {
    var key := Recent(ops)[at];
    RecentIsAList(ops);
    WithoutIsCutOut(Recent(ops), at);
    assert (ops + [Touch(key)])[..|ops|] == ops && (ops + [Ensure(key, app)])[..|ops|] == ops;
    assert (ops + [Forget(key)])[..|ops|] == ops;
  }

  /**
    A key that is not there comes in front when ensured, the last of 32 others going; touched or forgotten, it
    changes nothing.
  */
  lemma UnknownKeyEnters(ops: seq<Operation>, key: Key, app: App)
    requires key !in Recent(ops)
    ensures var keys := Recent(ops);
            && Recent(ops + [Ensure(key, app)]) == [key] + keys[..Min(|keys|, MAX_PEERS - 1)]
            && Recent(ops + [Touch(key)]) == keys && Recent(ops + [Forget(key)]) == keys
  {
    NothingToForget(Recent(ops), key);
    assert (ops + [Touch(key)])[..|ops|] == ops && (ops + [Ensure(key, app)])[..|ops|] == ops;
    assert (ops + [Forget(key)])[..|ops|] == ops;
    assert [key] + Recent(ops)[..Min(|Recent(ops)|, MAX_PEERS - 1)] == FirstFew([key] + Recent(ops), MAX_PEERS);
  }

  lemma BehindIsIn(keys: seq<Key>, key: Key, front: seq<Key>, seen: set<Key>)
    requires Behind(keys, key, front, seen)
    ensures key in keys
  {
    assert keys[|front|] == (front + [key])[|front|] == key;
  }

  /** One operation more, that does not forget `key`. */
  lemma StaysBehind(keys: seq<Key>, key: Key, front: seq<Key>, seen: set<Key>, op: Operation) returns (after: seq<Key>)
    requires Behind(keys, key, front, seen) && op != Forget(key)
    requires |seen + if op.Forget? || op.key == key then {} else {op.key}| < MAX_PEERS
    ensures Behind(Apply(keys, op), key, after, seen + if op.Forget? || op.key == key then {} else {op.key})
  {
    after := front;
    if op.Forget? {
      ForgettingAnother(keys, key, front, seen, op.key);
      after := Without(front, op.key);
      assert seen + {} == seen;
    } else if op.key == key {
      assert front + [key] <= keys && (front + [key])[|front|] == keys[|front|] == key;
      SeeingItAgain(keys, key, seen + {});
      after := [];
    } else if op.Ensure? || op.key in keys {
      after := SeeingAnother(keys, key, front, seen, op.key);
    }
  }

  lemma {:induction false} FewerIfSubset(a: set<Key>, b: set<Key>)
    requires a <= b
    ensures |a| <= |b|
  {
    if a != {} {
      var x :| x in a;
      FewerIfSubset(a - {x}, b - {x});
    }
  }

  // ----- The entries, by recency -----

  predicate Distinct(peers: seq<Peer>) {
    forall i, j :: 0 <= i < j < |peers| ==> peers[i].key != peers[j].key && peers[i].seqNo != peers[j].seqNo
  }

  predicate Descending(order: seq<Peer>) {
    forall i, j :: 0 <= i < j < |order| ==> order[i].seqNo > order[j].seqNo
  }

  /** `order` is the same entries, newest first. */
  ghost predicate IsRecency(order: seq<Peer>, peers: seq<Peer>) {
    Descending(order) && forall p :: p in order <==> p in peers
  }

  function Keys(peers: seq<Peer>): (keys: seq<Key>)
    ensures |keys| == |peers| && forall i :: 0 <= i < |peers| ==> keys[i] == peers[i].key
  {
    seq(|peers|, i requires 0 <= i < |peers| => peers[i].key)
  }

  function WithoutPeer(order: seq<Peer>, key: Key): seq<Peer> {
    if order == [] then []
    else
      var rest := WithoutPeer(order[..|order| - 1], key);
      if order[|order| - 1].key == key then rest else rest + [order[|order| - 1]]
  }

  lemma {:induction false} KeysWithoutPeer(order: seq<Peer>, key: Key)
    ensures Keys(WithoutPeer(order, key)) == Without(Keys(order), key)
  {
    if order != [] {
      var init, last := order[..|order| - 1], order[|order| - 1];
      KeysWithoutPeer(init, key);
      assert Keys(order)[..|order| - 1] == Keys(init);
      assert (WithoutPeer(init, key) + [last])[..|WithoutPeer(init, key)|] == WithoutPeer(init, key);
    }
  }

  lemma {:induction false} WithoutPeerMembers(order: seq<Peer>, key: Key, p: Peer)
    ensures p in WithoutPeer(order, key) <==> p in order && p.key != key
  {
    if order != [] {
      WithoutPeerMembers(order[..|order| - 1], key, p);
      assert order == order[..|order| - 1] + [order[|order| - 1]];
    }
  }

  lemma {:induction false} WithoutPeerDescends(order: seq<Peer>, key: Key)
    requires Descending(order)
    ensures Descending(WithoutPeer(order, key))
  {
    if order != [] {
      var init, last := order[..|order| - 1], order[|order| - 1];
      WithoutPeerDescends(init, key);
      var rest := WithoutPeer(init, key);
      forall i | 0 <= i < |rest| ensures rest[i].seqNo > last.seqNo {
        WithoutPeerMembers(init, key, rest[i]);
      }
    }
  }

  lemma RemoveEntry(peers: seq<Peer>, i: nat)
    requires Distinct(peers) && i < |peers|
    ensures var rest := peers[..i] + peers[i + 1..];
            Distinct(rest) && forall p :: p in rest <==> p in peers && p != peers[i]
  {
    var rest := peers[..i] + peers[i + 1..];
    forall p ensures p in rest <==> p in peers && p != peers[i] {
      assert peers == peers[..i] + [peers[i]] + peers[i + 1..];
      if p in peers[..i] {
        var k :| 0 <= k < i && peers[k] == p;
      }
      if p in peers[i + 1..] {
        var k :| i + 1 <= k < |peers| && peers[k] == p;
      }
    }
  }

  lemma OldestIsLast(order: seq<Peer>, peers: seq<Peer>, oldest: Peer)
    requires IsRecency(order, peers) && oldest in peers
    requires forall p :: p in peers ==> oldest.seqNo <= p.seqNo
    ensures order != [] && order[|order| - 1] == oldest
    ensures forall p :: p in order[..|order| - 1] <==> p in order && p != oldest
  {
    var i :| 0 <= i < |order| && order[i] == oldest;
    assert order[|order| - 1] in peers;
  }

  lemma {:induction false} SameSize(order: seq<Peer>, peers: seq<Peer>)
    requires IsRecency(order, peers) && Distinct(peers)
    ensures |order| == |peers|
  {
    NoMoreEntries(order, peers);
    NoMoreEntries(peers, order);
  }

  lemma {:induction false} NoMoreEntries(a: seq<Peer>, b: seq<Peer>)
    requires (forall i, j :: 0 <= i < j < |a| ==> a[i] != a[j]) && forall p :: p in a ==> p in b
    ensures |a| <= |b|
    decreases |a|
  {
    if a != [] {
      var x := a[|a| - 1];
      assert x in a;
      var i :| 0 <= i < |b| && b[i] == x;
      var rest := b[..i] + b[i + 1..];
      forall p | p in a[..|a| - 1] ensures p in rest {
        assert p in b && p != x;
        var k :| 0 <= k < |b| && b[k] == p;
        if k < i { assert rest[k] == p; } else { assert rest[k - 1] == p; }
      }
      NoMoreEntries(a[..|a| - 1], rest);
    }
  }

  // ----- peers.json -----

  class PeerStore {
    var seqNo: nat
    var peers: seq<Peer>
    ghost var order: seq<Peer>

    ghost predicate Valid()
      reads this
    {
      && Distinct(peers) && IsRecency(order, peers)
      && forall p :: p in peers ==> p.seqNo <= seqNo
    }

    constructor ()
      ensures Valid() && order == [] && seqNo == 0
    {
      seqNo, peers, order := 0, [], [];
    }

    /** findPeer(): the entry's index, or the number of entries. */
    method FindPeer(key: Key) returns (i: nat)
      ensures Finds(peers, i, key)
    {
      i := 0;
      while i < |peers| && peers[i].key != key
        invariant i <= |peers| && forall k :: 0 <= k < i ==> peers[k].key != key
      {
        i := i + 1;
      }
    }

    /** ensurePeer(), once the directory is there: `saved` is whether the index could be written. */
    method EnsurePeer(key: Key, app: App, saved: bool) returns (ok: bool)
      requires Valid() && seqNo + 1 < SEQ_MAX
      modifies this
      ensures Valid() && ok == saved
      ensures Keys(order) == if saved then Apply(old(Keys(order)), Ensure(key, app)) else old(Keys(order))
      ensures seqNo == if saved then old(seqNo) + 1 else old(seqNo)
      ensures saved ==> order != [] && order[0].key == key && order[0].seqNo == seqNo
      ensures !saved ==> order == old(order)
    {
      var stamp := seqNo + 1;
      var i := FindPeer(key);
      var newest := Peer(key, if i < |peers| then peers[i].app else app, stamp);
      EntrySeen(peers, order, i, newest, seqNo);
      ghost var newOrder := [newest] + WithoutPeer(order, key);
      var doc := EvictOverflow(Stamped(peers, i, newest), newOrder);
      if saved {
        KeysOfNewest(order, newest);
        KeptIsOlder(newOrder, doc, stamp);
        seqNo, peers, order := stamp, doc, FirstFew(newOrder, MAX_PEERS);
      }
      return saved;
    }

    /** touch(): a peer the index does not have is left out of it. */
    method TouchPeer(key: Key, saved: bool)
      requires Valid() && seqNo + 1 < SEQ_MAX
      modifies this
      ensures Valid()
      ensures Keys(order) == if saved then Apply(old(Keys(order)), Touch(key)) else old(Keys(order))
      ensures saved && key in old(Keys(order)) ==>
                order != [] && order[0].key == key && order[0].seqNo == seqNo == old(seqNo) + 1
      ensures !saved || key !in old(Keys(order)) ==> order == old(order) && seqNo == old(seqNo)
    {
      var i := FindPeer(key);
      KeyInOrder(peers, order, key);
      if i < |peers| {
        assert peers[i] in peers;
        var ignored := EnsurePeer(key, peers[i].app, saved);
      }
    }

    /** forgetPeer() */
    method ForgetPeer(key: Key, saved: bool) returns (found: bool)
      requires Valid()
      modifies this
      ensures Valid() && found == (key in old(Keys(order))) && seqNo == old(seqNo)
      ensures Keys(order) == if saved then Apply(old(Keys(order)), Forget(key)) else old(Keys(order))
    {
      var i := FindPeer(key);
      KeyInOrder(peers, order, key);
      found := i < |peers|;
      if found {
        assert peers[i] in peers;
        EntryForgotten(peers, order, i);
        if saved {
          peers, order := peers[..i] + peers[i + 1..], WithoutPeer(order, key);
        }
      } else {
        NothingToForget(Keys(order), key);
      }
    }

    /** listPeers(): picks the newest below the last one picked, until there is none or the room is used up. */
    method ListPeers(maxPeers: nat) returns (keys: seq<Key>)
      requires Valid() && seqNo < SEQ_MAX
      ensures keys == FirstFew(Keys(order), maxPeers)
    {
      keys := [];
      var previousSeq := SEQ_MAX;
      SameSize(order, peers);
      while |keys| < maxPeers
        invariant |keys| <= |order| && |keys| <= maxPeers && keys == Keys(order)[..|keys|]
        invariant previousSeq == if keys == [] then SEQ_MAX else order[|keys| - 1].seqNo
        decreases maxPeers - |keys|
      {
        var best := NewestBelow(peers, previousSeq);
        NextByRecency(peers, order, |keys|, previousSeq, best);
        if best.None? {
          break;
        }
        keys := keys + [peers[best.value].key];
        previousSeq := peers[best.value].seqNo;
      }
    }

    /** listIconTiles(): one tile an app, newest first, up to the tile cap. */
    method ListIconTiles(hasIcon: Key -> bool, maxTiles: nat) returns (keys: seq<Key>)
      requires Valid()
      ensures keys == FirstFew(Keys(Tiles(order, hasIcon)), Min(maxTiles, MAX_ICON_TILES))
    {
      keys := [];
      var room := Min(maxTiles, MAX_ICON_TILES);
      var chosenApps: seq<App> := [];
      ghost var tiles := Tiles(order, hasIcon);
      while |keys| < room
        invariant |keys| <= |tiles| && |keys| <= room
        invariant keys == Keys(tiles)[..|keys|] && chosenApps == Apps(tiles[..|keys|])
        decreases room - |keys|
      {
        var best := NewestEligible(peers, hasIcon, chosenApps);
        NextTile(peers, order, hasIcon, |keys|, best);
        if best.None? {
          break;
        }
        keys := keys + [peers[best.value].key];
        chosenApps := chosenApps + [peers[best.value].app];
      }
    }
  }

  lemma KeyInOrder(peers: seq<Peer>, order: seq<Peer>, key: Key)
    requires IsRecency(order, peers)
    ensures key in Keys(order) <==> exists i :: 0 <= i < |peers| && peers[i].key == key
  {
    if key in Keys(order) {
      var k :| 0 <= k < |order| && Keys(order)[k] == key;
      assert order[k] in peers;
    }
    if i :| 0 <= i < |peers| && peers[i].key == key {
      assert peers[i] in order;
      var k :| 0 <= k < |order| && order[k] == peers[i];
      assert Keys(order)[k] == key;
    }
  }

  lemma {:induction false} NothingToForget(keys: seq<Key>, key: Key)
    requires key !in keys
    ensures Without(keys, key) == keys
  {
    if keys != [] {
      assert keys == keys[..|keys| - 1] + [keys[|keys| - 1]];
      NothingToForget(keys[..|keys| - 1], key);
    }
  }

  lemma EntryForgotten(peers: seq<Peer>, order: seq<Peer>, i: nat)
    requires Distinct(peers) && IsRecency(order, peers) && i < |peers|
    ensures var rest := peers[..i] + peers[i + 1..];
            && Distinct(rest) && IsRecency(WithoutPeer(order, peers[i].key), rest)
            && forall p :: p in rest ==> p in peers
    ensures Keys(WithoutPeer(order, peers[i].key)) == Without(Keys(order), peers[i].key)
  {
    RemoveEntry(peers, i);
    WithoutPeerDescends(order, peers[i].key);
    KeysWithoutPeer(order, peers[i].key);
    forall p ensures p in WithoutPeer(order, peers[i].key) <==> p in peers && p != peers[i] {
      WithoutPeerMembers(order, peers[i].key, p);
    }
  }

  predicate IsNewestBelow(peers: seq<Peer>, bound: nat, best: Option<nat>) {
    match best
    case None => forall k :: 0 <= k < |peers| ==> peers[k].seqNo >= bound
    case Some(i) =>
      i < |peers| && peers[i].seqNo < bound &&
      forall k :: 0 <= k < |peers| && peers[k].seqNo < bound ==> peers[k].seqNo <= peers[i].seqNo
  }

  method NewestBelow(peers: seq<Peer>, bound: nat) returns (best: Option<nat>)
    ensures IsNewestBelow(peers, bound, best)
  {
    best := None;
    for i := 0 to |peers|
      invariant IsNewestBelow(peers[..i], bound, best)
    {
      if peers[i].seqNo < bound && (best.None? || peers[i].seqNo > peers[best.value].seqNo) {
        best := Some(i);
      }
    }
    assert peers[..|peers|] == peers;
  }

  lemma NextByRecency(peers: seq<Peer>, order: seq<Peer>, n: nat, bound: nat, best: Option<nat>)
    requires IsRecency(order, peers) && n <= |order| && IsNewestBelow(peers, bound, best)
    requires forall p :: p in peers ==> p.seqNo < SEQ_MAX
    requires bound == if n == 0 then SEQ_MAX else order[n - 1].seqNo
    ensures if best.None? then n == |order| else n < |order| && peers[best.value] == order[n]
  {
    if n < |order| {
      assert order[n] in peers;
      var k :| 0 <= k < |peers| && peers[k] == order[n];
    }
    if best.Some? {
      assert peers[best.value] in order;
      var j :| 0 <= j < |order| && order[j] == peers[best.value];
    }
  }

  // ----- Icon tiles -----

  predicate HasApp(peers: seq<Peer>, app: App) {
    exists i :: 0 <= i < |peers| && peers[i].app == app
  }

  /** Of peers listed newest first, the first one with an icon for each app. */
  function Tiles(order: seq<Peer>, hasIcon: Key -> bool): seq<Peer> {
    if order == [] then []
    else
      var tiles, p := Tiles(order[..|order| - 1], hasIcon), order[|order| - 1];
      if hasIcon(p.key) && !HasApp(tiles, p.app) then tiles + [p] else tiles
  }

  lemma {:induction false} TilesMembers(order: seq<Peer>, hasIcon: Key -> bool, p: Peer)
    requires p in Tiles(order, hasIcon)
    ensures p in order && hasIcon(p.key)
  {
    var init := order[..|order| - 1];
    assert order == init + [order[|order| - 1]];
    if p in Tiles(init, hasIcon) {
      TilesMembers(init, hasIcon, p);
    }
  }

  lemma {:induction false} TilesDescend(order: seq<Peer>, hasIcon: Key -> bool)
    requires Descending(order)
    ensures Descending(Tiles(order, hasIcon))
  {
    if order != [] {
      var init, p := order[..|order| - 1], order[|order| - 1];
      var tiles := Tiles(init, hasIcon);
      TilesDescend(init, hasIcon);
      forall k | 0 <= k < |tiles| ensures tiles[k].seqNo > p.seqNo {
        TilesMembers(init, hasIcon, tiles[k]);
      }
    }
  }

  predicate OnePerApp(tiles: seq<Peer>) {
    forall i, j :: 0 <= i < j < |tiles| ==> tiles[i].app != tiles[j].app
  }

  lemma OneMoreApp(tiles: seq<Peer>, p: Peer)
    requires OnePerApp(tiles) && !HasApp(tiles, p.app)
    ensures OnePerApp(tiles + [p])
  {
    var all := tiles + [p];
    forall i, j | 0 <= i < j < |all| ensures all[i].app != all[j].app {
      assert tiles[i].app != p.app;
    }
  }

  lemma {:induction false} TilesPerApp(order: seq<Peer>, hasIcon: Key -> bool)
    ensures OnePerApp(Tiles(order, hasIcon))
  {
    if order != [] {
      var tiles, p := Tiles(order[..|order| - 1], hasIcon), order[|order| - 1];
      TilesPerApp(order[..|order| - 1], hasIcon);
      if !HasApp(tiles, p.app) {
        OneMoreApp(tiles, p);
      }
    }
  }

  /** Every app with an icon has a tile, and of its peers with one it is the newest. */
  lemma {:induction false} TileForEachApp(order: seq<Peer>, hasIcon: Key -> bool, p: Peer) returns (i: nat)
    requires Descending(order) && p in order && hasIcon(p.key)
    ensures i < |Tiles(order, hasIcon)| && Tiles(order, hasIcon)[i].app == p.app &&
            Tiles(order, hasIcon)[i].seqNo >= p.seqNo
  {
    var init, last := order[..|order| - 1], order[|order| - 1];
    var tiles := Tiles(init, hasIcon);
    assert order == init + [last];
    if p in init {
      i := TileForEachApp(init, hasIcon, p);
    } else if HasApp(tiles, p.app) {
      i :| 0 <= i < |tiles| && tiles[i].app == p.app;
      TilesMembers(init, hasIcon, tiles[i]);
    } else {
      i := |tiles|;
    }
  }

  predicate Eligible(p: Peer, hasIcon: Key -> bool, chosenApps: seq<App>) {
    hasIcon(p.key) && p.app !in chosenApps
  }

  predicate IsNewestEligible(peers: seq<Peer>, hasIcon: Key -> bool, chosenApps: seq<App>, best: Option<nat>) {
    match best
    case None => forall k :: 0 <= k < |peers| ==> !Eligible(peers[k], hasIcon, chosenApps)
    case Some(i) =>
      i < |peers| && Eligible(peers[i], hasIcon, chosenApps) &&
      forall k :: 0 <= k < |peers| && Eligible(peers[k], hasIcon, chosenApps) ==> peers[k].seqNo <= peers[i].seqNo
  }

  method AlreadyChosen(chosenApps: seq<App>, app: App) returns (chosen: bool)
    ensures chosen == (app in chosenApps)
  {
    chosen := false;
    for c := 0 to |chosenApps|
      invariant app !in chosenApps[..c]
    {
      if chosenApps[c] == app {
        return true;
      }
    }
  }

  method NewestEligible(peers: seq<Peer>, hasIcon: Key -> bool, chosenApps: seq<App>) returns (best: Option<nat>)
    ensures IsNewestEligible(peers, hasIcon, chosenApps, best)
  {
    best := None;
    for i := 0 to |peers|
      invariant IsNewestEligible(peers[..i], hasIcon, chosenApps, best)
    {
      if hasIcon(peers[i].key) {
        var chosen := AlreadyChosen(chosenApps, peers[i].app);
        if !chosen && (best.None? || peers[i].seqNo > peers[best.value].seqNo) {
          best := Some(i);
        }
      }
    }
    assert peers[..|peers|] == peers;
  }

  function Apps(peers: seq<Peer>): seq<App> {
    seq(|peers|, i requires 0 <= i < |peers| => peers[i].app)
  }

  lemma ChosenApp(tiles: seq<Peer>, n: nat, i: nat)
    requires i < |tiles| && n <= |tiles|
    ensures i < n ==> tiles[i].app in Apps(tiles[..n])
  {
    if i < n {
      assert Apps(tiles[..n])[i] == tiles[i].app;
    }
  }

  lemma NextTile(peers: seq<Peer>, order: seq<Peer>, hasIcon: Key -> bool, n: nat, best: Option<nat>)
    requires Distinct(peers) && IsRecency(order, peers) && n <= |Tiles(order, hasIcon)|
    requires IsNewestEligible(peers, hasIcon, Apps(Tiles(order, hasIcon)[..n]), best)
    ensures var tiles := Tiles(order, hasIcon);
            if best.None? then n == |tiles| else n < |tiles| && peers[best.value] == tiles[n]
  {
    var tiles := Tiles(order, hasIcon);
    var chosen := Apps(tiles[..n]);
    TilesDescend(order, hasIcon);
    TilesPerApp(order, hasIcon);
    if n < |tiles| {
      TilesMembers(order, hasIcon, tiles[n]);
      assert tiles[n] in peers;
      var k :| 0 <= k < |peers| && peers[k] == tiles[n];
      assert Eligible(peers[k], hasIcon, chosen);
    }
    if best.Some? {
      var p := peers[best.value];
      assert p in order;
      var i := TileForEachApp(order, hasIcon, p);
      ChosenApp(tiles, n, i);
      TilesMembers(order, hasIcon, tiles[i]);
      assert tiles[n].seqNo >= tiles[i].seqNo >= p.seqNo;
    }
  }

  lemma KeptIsOlder(order: seq<Peer>, kept: seq<Peer>, seqNo: nat)
    requires IsRecency(FirstFew(order, MAX_PEERS), kept) && forall p :: p in order ==> p.seqNo <= seqNo
    ensures forall p :: p in kept ==> p.seqNo <= seqNo
  {
    forall p | p in kept ensures p in order {
      assert p in FirstFew(order, MAX_PEERS);
    }
  }

  function Stamped(peers: seq<Peer>, i: nat, newest: Peer): seq<Peer>
    requires i <= |peers|
  {
    if i < |peers| then peers[i := newest] else peers + [newest]
  }

  /** Entry `i` is the one with the key, or none has it. */
  ghost predicate Finds(peers: seq<Peer>, i: nat, key: Key) {
    i <= |peers| && if i < |peers| then peers[i].key == key else forall k :: 0 <= k < |peers| ==> peers[k].key != key
  }

  lemma StampedMembers(peers: seq<Peer>, i: nat, newest: Peer, p: Peer)
    requires Distinct(peers) && Finds(peers, i, newest.key)
    ensures p in Stamped(peers, i, newest) <==> p == newest || (p in peers && p.key != newest.key)
  {
    if i < |peers| {
      var after := peers[i := newest];
      if p in peers && p.key != newest.key {
        var k :| 0 <= k < |peers| && peers[k] == p;
        assert after[k] == p;
      }
      assert after[i] == newest;
      if p in after && p != newest {
        var k :| 0 <= k < |after| && after[k] == p;
        assert peers[k] == p;
      }
    }
  }

  lemma StampedDistinct(peers: seq<Peer>, i: nat, newest: Peer)
    requires Distinct(peers) && Finds(peers, i, newest.key)
    requires forall k :: 0 <= k < |peers| ==> peers[k].seqNo < newest.seqNo
    ensures Distinct(Stamped(peers, i, newest))
  {
  }

  lemma NewestFirst(order: seq<Peer>, newest: Peer)
    requires Descending(order) && forall p :: p in order ==> p.seqNo < newest.seqNo
    ensures Descending([newest] + WithoutPeer(order, newest.key))
  {
    var rest := WithoutPeer(order, newest.key);
    WithoutPeerDescends(order, newest.key);
    forall k | 0 <= k < |rest| ensures rest[k].seqNo < newest.seqNo {
      WithoutPeerMembers(order, newest.key, rest[k]);
    }
  }

  lemma KeysOfNewest(order: seq<Peer>, newest: Peer)
    ensures Keys(FirstFew([newest] + WithoutPeer(order, newest.key), MAX_PEERS)) == See(Keys(order), newest.key)
  {
    KeysWithoutPeer(order, newest.key);
    KeysCons(newest, WithoutPeer(order, newest.key));
    KeysFirstFew([newest] + WithoutPeer(order, newest.key), MAX_PEERS);
  }

  lemma KeysCons(p: Peer, peers: seq<Peer>)
    ensures Keys([p] + peers) == [p.key] + Keys(peers)
  {
  }

  lemma KeysFirstFew(peers: seq<Peer>, n: nat)
    ensures Keys(FirstFew(peers, n)) == FirstFew(Keys(peers), n)
  {
  }

  /** The index with one entry stamped anew, or added. */
  lemma EntrySeen(peers: seq<Peer>, order: seq<Peer>, i: nat, newest: Peer, seqNo: nat)
    requires Distinct(peers) && IsRecency(order, peers) && forall p :: p in peers ==> p.seqNo <= seqNo
    requires Finds(peers, i, newest.key) && newest.seqNo == seqNo + 1
    ensures var doc := Stamped(peers, i, newest);
            && Distinct(doc) && IsRecency([newest] + WithoutPeer(order, newest.key), doc)
            && forall p :: p in doc ==> p.seqNo <= seqNo + 1
  {
    StampedDistinct(peers, i, newest);
    NewestFirst(order, newest);
    forall p ensures p in [newest] + WithoutPeer(order, newest.key) <==> p in Stamped(peers, i, newest) {
      WithoutPeerMembers(order, newest.key, p);
      StampedMembers(peers, i, newest, p);
    }
    forall p | p in Stamped(peers, i, newest) ensures p.seqNo <= seqNo + 1 {
      StampedMembers(peers, i, newest, p);
    }
  }

  /** The entry an eviction would take. */
  method OldestIndex(peers: seq<Peer>) returns (oldestIndex: nat)
    requires peers != [] && forall p :: p in peers ==> p.seqNo < SEQ_MAX
    ensures oldestIndex < |peers| && forall p :: p in peers ==> peers[oldestIndex].seqNo <= p.seqNo
  {
    oldestIndex := 0;
    var oldestSeq := SEQ_MAX;
    for i := 0 to |peers|
      invariant oldestIndex < |peers| && (i > 0 ==> oldestSeq == peers[oldestIndex].seqNo)
      invariant i == 0 ==> oldestSeq == SEQ_MAX
      invariant forall k :: 0 <= k < i ==> oldestSeq <= peers[k].seqNo
    {
      assert peers[i] in peers;
      if peers[i].seqNo < oldestSeq {
        oldestSeq := peers[i].seqNo;
        oldestIndex := i;
      }
    }
  }

  /** Drops the least recently seen until at most 32 remain. */
  method EvictOverflow(all: seq<Peer>, ghost order: seq<Peer>) returns (peers: seq<Peer>)
    requires Distinct(all) && IsRecency(order, all) && forall p :: p in all ==> p.seqNo < SEQ_MAX
    ensures Distinct(peers) && IsRecency(FirstFew(order, MAX_PEERS), peers)
  {
    peers := all;
    ghost var kept := order;
    SameSize(order, all);
    while |peers| > MAX_PEERS
      invariant Distinct(peers) && IsRecency(kept, peers) && |kept| == |peers|
      invariant kept <= order && |kept| >= Min(|order|, MAX_PEERS)
      invariant forall p :: p in peers ==> p.seqNo < SEQ_MAX
    {
      var oldestIndex := OldestIndex(peers);
      RemoveEntry(peers, oldestIndex);
      OldestIsLast(kept, peers, peers[oldestIndex]);
      kept := kept[..|kept| - 1];
      peers := peers[..oldestIndex] + peers[oldestIndex + 1..];
    }
  }
}
