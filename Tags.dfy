/** The tag protocol of worker.py: `stamp:<type>` tags ask for a stamp,
    `stamped:<type>` tags record one, `stamp:error` marks a failure. This
    module reads the stamp types off a document's tags and performs the
    two tag transitions, `_swap_tags` after a success and `_handle_error`
    after a failure. */
module Tags {
  import opened Outcomes
  import opened Text
  import opened Errors
  import opened Client
  import opened Resolvers

  const StampTagPrefix := "stamp:"
  const DoneTagPrefix := "stamped:"
  const ErrorTagName := "stamp:error"
  const NotePrefix := "[paperless-stamp] Stamping failed: "

  function TriggerName(stampType: string): string { StampTagPrefix + stampType }

  function DoneName(stampType: string): string { DoneTagPrefix + stampType }

  // ---------------------------------------------------------------------
  // Reading stamp types off tag names
  // ---------------------------------------------------------------------

  /** The stamp type a tag name asks for: the name starts with `stamp:` in
      any case, and the rest, kept as written, is neither empty nor
      `error`. */
  function TriggerType(name: string): (r: Option<string>)
    ensures r.Some? ==> |name| >= |StampTagPrefix| && r.value == name[|StampTagPrefix|..]
    ensures r.Some? ==> r.value != "" && r.value != "error"
  {
    if name != "" && StartsWith(Lower(name), StampTagPrefix) then
      var stampType := name[|StampTagPrefix|..];
      if stampType != "" && stampType != "error" then Some(stampType) else None
    else None
  }

  /** TriggerType by the first six characters of the name. */
  lemma TriggerTypeByPrefix(name: string)
    ensures TriggerType(name) ==
      if |name| >= 6 && Lower(name[..6]) == StampTagPrefix && name[6..] != "" && name[6..] != "error"
      then Some(name[6..]) else None
  {
    if |name| >= 6 {
      LowerPrefix(name, 6);
    }
  }

  /** `stamp:<type>` asks for `<type>`. */
  lemma TriggerTypeOfTriggerName(stampType: string)
    requires stampType != "" && stampType != "error"
    ensures TriggerType(TriggerName(stampType)) == Some(stampType)
  {
    var n := TriggerName(stampType);
    TriggerTypeByPrefix(n);
    assert n[..6] == StampTagPrefix && n[6..] == stampType;
    assert Lower(StampTagPrefix) == StampTagPrefix by {
      forall i | 0 <= i < 6 ensures Lower(StampTagPrefix)[i] == StampTagPrefix[i] {
        assert !IsAsciiUpper(StampTagPrefix[i]);
      }
    }
  }

  /** The `stamp:` prefix is matched in any case, and the type is kept as
      written. */
  lemma TriggerTypeIgnoresPrefixCase(prefix: string, stampType: string)
    requires Lower(prefix) == StampTagPrefix
    ensures TriggerType(prefix + stampType) == TriggerType(TriggerName(stampType))
  {
    var n := prefix + stampType;
    TriggerTypeByPrefix(n);
    assert n[..6] == prefix && n[6..] == stampType;
    if stampType != "" && stampType != "error" {
      TriggerTypeOfTriggerName(stampType);
    } else {
      TriggerTypeByPrefix(TriggerName(stampType));
      assert TriggerName(stampType)[6..] == stampType;
    }
  }

  /** `stamped:<type>` asks for nothing, so the done tags the worker adds
      never make a document stampable again. */
  lemma DoneTagsAreNotTriggers(stampType: string)
    ensures TriggerType(DoneName(stampType)) == None
  {
    var d := DoneName(stampType);
    TriggerTypeByPrefix(d);
    assert d[5] == 'e';
    assert Lower(d[..6])[5] == 'e';
  }

  /** Nor does `stamp:error`. */
  lemma ErrorTagIsNotTrigger()
    ensures TriggerType(ErrorTagName) == None
  {
    TriggerTypeByPrefix(ErrorTagName);
    assert ErrorTagName[6..] == "error";
  }

  /** A trigger name is never a done name. */
  lemma TriggerNameIsNotDoneName(t: string, u: string)
    ensures TriggerName(t) != DoneName(u)
    ensures !StartsWith(TriggerName(t), DoneTagPrefix)
  {
    assert TriggerName(t)[5] == ':' && DoneName(u)[5] == 'e';
  }

  /** The stamp type a tag id asks for under the cached names; an id the
      cache does not know asks for nothing. */
  function TagType(idToName: map<int, string>, id: int): Option<string>
  {
    if id in idToName then TriggerType(idToName[id]) else None
  }

  /** The values `pick` finds in a list, in list order. */
  function Picked<T>(ids: seq<int>, pick: int -> Option<T>): seq<T>
  {
    if ids == [] then []
    else
      var last := pick(ids[|ids| - 1]);
      Picked(ids[..|ids| - 1], pick) + (if last.Some? then [last.value] else [])
  }

  lemma {:induction false} PickedAppend<T>(a: seq<int>, b: seq<int>, pick: int -> Option<T>)
    ensures Picked(a + b, pick) == Picked(a, pick) + Picked(b, pick)
    decreases |b|
  {
    if b != [] {
      var b' := b[..|b| - 1];
      assert (a + b)[..|a + b| - 1] == a + b';
      PickedAppend(a, b', pick);
    } else {
      assert a + b == a;
    }
  }

  lemma {:induction false} PickedMembership<T>(ids: seq<int>, pick: int -> Option<T>, v: T)
    ensures v in Picked(ids, pick) <==> exists i :: 0 <= i < |ids| && pick(ids[i]) == Some(v)
  {
    if ids != [] {
      var init := ids[..|ids| - 1];
      var n := |ids| - 1;
      PickedMembership(init, pick, v);
      if v in Picked(init, pick) {
        var i :| 0 <= i < |init| && pick(init[i]) == Some(v);
        assert ids[i] == init[i];
      }
      if exists i :: 0 <= i < |ids| && pick(ids[i]) == Some(v) {
        var i :| 0 <= i < |ids| && pick(ids[i]) == Some(v);
        if i < n {
          assert init[i] == ids[i];
        }
      }
    }
  }

  /** The stamp types of a tag list, in tag order. */
  function StampTypes(tagIds: seq<int>, idToName: map<int, string>): seq<string>
  {
    Picked(tagIds, id => TagType(idToName, id))
  }

  /** The types of two tag lists are the types of the first followed by
      the types of the second: the document's tag order is kept. */
  lemma StampTypesAppend(a: seq<int>, b: seq<int>, idToName: map<int, string>)
    ensures StampTypes(a + b, idToName) == StampTypes(a, idToName) + StampTypes(b, idToName)
  {
    PickedAppend(a, b, id => TagType(idToName, id));
  }

  /** A type is extracted exactly when some tag of the list asks for it. */
  lemma StampTypesMembership(tagIds: seq<int>, idToName: map<int, string>, t: string)
    ensures t in StampTypes(tagIds, idToName) <==>
            exists i :: 0 <= i < |tagIds| && TagType(idToName, tagIds[i]) == Some(t)
  {
    PickedMembership(tagIds, id => TagType(idToName, id), t);
  }

  /** `_extract_stamp_types(document, tag_resolver)` */
  method ExtractStampTypes(doc: Document, resolver: TagResolver) returns (types: seq<string>)
    ensures types == StampTypes(doc.tags, resolver.idToName)
  {
    types := [];
    for i := 0 to |doc.tags|
      invariant types == StampTypes(doc.tags[..i], resolver.idToName)
    {
      assert doc.tags[..i + 1][..i] == doc.tags[..i];
      var tagId := doc.tags[i];
      if tagId in resolver.idToName {
        var tagName := resolver.idToName[tagId];
        if tagName != "" && StartsWith(Lower(tagName), StampTagPrefix) {
          var stampType := tagName[|StampTagPrefix|..];
          if stampType != "" && stampType != "error" {
            types := types + [stampType];
          }
        }
      }
    }
    assert doc.tags[..|doc.tags|] == doc.tags;
  }

  // ---------------------------------------------------------------------
  // sorted(set)
  // ---------------------------------------------------------------------

  predicate StrictlyIncreasing(s: seq<int>)
  {
    forall i, j :: 0 <= i < j < |s| ==> s[i] < s[j]
  }

  lemma NonEmpty(s: set<int>)
    requires s != {}
    ensures exists w :: w in s
  {
    if forall w :: w !in s {
      assert false;
    }
  }

  lemma MinExists(s: set<int>)
    requires s != {}
    ensures exists m :: m in s && forall y :: y in s ==> m <= y
  {
    NonEmpty(s);
    var w :| w in s;
    if s != {w} {
      MinExists(s - {w});
      var m :| m in s - {w} && forall y :: y in s - {w} ==> m <= y;
      var least := if w < m then w else m;
      forall y | y in s ensures least <= y {
        if y != w {
          assert y in s - {w};
        }
      }
      assert least in s;
    } else {
      forall y | y in s ensures w <= y {
        assert y in {w};
      }
    }
  }

  /** `sorted(ids)` of a set of tag ids. */
  ghost function SortedSeq(s: set<int>): (r: seq<int>)
    ensures StrictlyIncreasing(r)
    ensures forall x :: x in r <==> x in s
  {
    if s == {} then []
    else
      MinExists(s);
      var m :| m in s && forall y :: y in s ==> m <= y;
      var rest := SortedSeq(s - {m});
      assert forall i :: 0 <= i < |rest| ==> m < rest[i] by {
        forall i | 0 <= i < |rest| ensures m < rest[i] {
          assert rest[i] in s - {m};
        }
      }
      [m] + rest
  }

  /** Only one strictly increasing list has a given set of elements. */
  lemma {:induction false} SortedUnique(a: seq<int>, b: seq<int>)
    requires StrictlyIncreasing(a) && StrictlyIncreasing(b)
    requires forall x :: x in a <==> x in b
    ensures a == b
    decreases |a|
  {
    if a != [] {
      assert a[0] in a;
    }
    if b != [] {
      assert b[0] in b;
    }
    if a != [] && b != [] {
      assert a[0] in b;
      assert b[0] in a;
      var j :| 0 <= j < |b| && b[j] == a[0];
      assert b[0] <= b[j];
      var k :| 0 <= k < |a| && a[k] == b[0];
      assert a[0] <= a[k];
      forall x ensures x in a[1..] <==> x in b[1..] {
        if x in a[1..] {
          var i :| 0 <= i < |a[1..]| && a[1..][i] == x;
          assert a[0] < x;
          assert x in b && x != b[0];
        }
        if x in b[1..] {
          var i :| 0 <= i < |b[1..]| && b[1..][i] == x;
          assert b[0] < x;
          assert x in a && x != a[0];
        }
      }
      SortedUnique(a[1..], b[1..]);
    }
  }

  /** `sorted(ids)`: repeatedly takes the least remaining id. */
  method SortedIds(s: set<int>) returns (r: seq<int>)
    ensures r == SortedSeq(s)
  {
    r := [];
    var rest := s;
    while rest != {}
      invariant StrictlyIncreasing(r)
      invariant forall x :: x in s <==> x in r || x in rest
      invariant forall x :: x in r ==> x !in rest
      invariant forall x, y :: x in r && y in rest ==> x < y
      decreases |rest|
    {
      MinExists(rest);
      var m :| m in rest && forall y :: y in rest ==> m <= y;
      forall i | 0 <= i < |r| ensures r[i] < m {
        assert r[i] in r;
      }
      r := r + [m];
      rest := rest - {m};
    }
    SortedUnique(r, SortedSeq(s));
  }

  // ---------------------------------------------------------------------
  // Which tag ids a transition removes
  // ---------------------------------------------------------------------

  /** `set(document.get("tags", []))` */
  function SetOf(ids: seq<int>): set<int>
  {
    set x | x in ids
  }

  /** The ids a transition removes for type `t`: `name_to_id("stamp:<t>")`,
      the cached id of exactly that name, if any. */
  function CachedTriggerIds(nameToId: map<string, int>, t: string): set<int>
  {
    if TriggerName(t) in nameToId then {nameToId[TriggerName(t)]} else {}
  }

  /** The ids the corrected transitions remove for type `t`: those, and
      also every tag of the document whose cached name asks for `t`,
      whatever the case of its `stamp:` prefix. */
  function AnyCaseTriggerIds(nameToId: map<string, int>, idToName: map<int, string>, docTags: seq<int>,
                             t: string): set<int>
  {
    CachedTriggerIds(nameToId, t) + set id | id in docTags && TagType(idToName, id) == Some(t)
  }

  /** The union of `f(t)` over the types. */
  function UnionOver(types: seq<string>, f: string -> set<int>): set<int>
  {
    if types == [] then {} else UnionOver(types[..|types| - 1], f) + f(types[|types| - 1])
  }

  lemma {:induction false} UnionOverMember(types: seq<string>, f: string -> set<int>, i: nat)
    requires i < |types|
    ensures f(types[i]) <= UnionOver(types, f)
  {
    if i < |types| - 1 {
      UnionOverMember(types[..|types| - 1], f, i);
    }
  }

  /** The loop of `_swap_tags` over a set: per type, first discard its
      trigger ids, then add its done ids. */
  function DiscardAdd(current: set<int>, types: seq<string>, trig: string -> set<int>, done: string -> set<int>): set<int>
  {
    if types == [] then current
    else
      var t := types[|types| - 1];
      (DiscardAdd(current, types[..|types| - 1], trig, done) - trig(t)) + done(t)
  }

  /** The sequential discard-and-add keeps every id that is no type's
      trigger, adds nothing but done ids, and, when no done id is also a
      trigger id, is exactly `(current - triggers) + dones`. */
  lemma {:induction false} DiscardAddResult(current: set<int>, types: seq<string>, trig: string -> set<int>,
                                             done: string -> set<int>)
    ensures current - UnionOver(types, trig) <= DiscardAdd(current, types, trig, done)
    ensures DiscardAdd(current, types, trig, done) <= current + UnionOver(types, done)
    ensures UnionOver(types, done) !! UnionOver(types, trig) ==>
      DiscardAdd(current, types, trig, done) == (current - UnionOver(types, trig)) + UnionOver(types, done)
  {
    if types != [] {
      var init := types[..|types| - 1];
      var t := types[|types| - 1];
      DiscardAddResult(current, init, trig, done);
      if UnionOver(types, done) !! UnionOver(types, trig) {
        assert UnionOver(init, done) !! UnionOver(init, trig);
        assert UnionOver(init, done) !! trig(t);
      }
    }
  }

  // ---------------------------------------------------------------------
  // The caches during a transition
  // ---------------------------------------------------------------------

  /** `cache` is `base` plus done tags created on the way: it keeps every
      entry of `base`, and every name it adds is a done name the server
      created with that id. */
  ghost predicate Extends(cache: TagCache, base: TagCache, create: string -> Result<int, Error>)
  {
    && (forall n :: n in base.nameToId ==> n in cache.nameToId && cache.nameToId[n] == base.nameToId[n])
    && (forall n :: n in cache.nameToId && n !in base.nameToId ==>
          StartsWith(n, DoneTagPrefix) && create(n) == Ok(cache.nameToId[n]))
  }

  /** Ensuring a done tag on an extended cache answers what it would have
      answered on the base cache, and the cache stays an extension. */
  lemma EnsureOnExtension(cache: TagCache, base: TagCache, create: string -> Result<int, Error>, t: string)
    requires Extends(cache, base, create)
    ensures Ensure(cache, DoneName(t), create).0 == Ensure(base, DoneName(t), create).0
    ensures Extends(Ensure(cache, DoneName(t), create).1, base, create)
  {
    assert DoneName(t)[..|DoneTagPrefix|] == DoneTagPrefix;
  }

  /** The trigger lookups of an extended cache are those of the base. */
  lemma TriggersOnExtension(cache: TagCache, base: TagCache, create: string -> Result<int, Error>, t: string)
    requires Extends(cache, base, create)
    ensures CachedTriggerIds(cache.nameToId, t) == CachedTriggerIds(base.nameToId, t)
  {
    TriggerNameIsNotDoneName(t, t);
  }

  // ---------------------------------------------------------------------
  // _swap_tags
  // ---------------------------------------------------------------------

  /** The ids a successful ensure of `t`'s done tag answers. */
  function DoneIds(base: TagCache, create: string -> Result<int, Error>, t: string): set<int>
  {
    var r := Ensure(base, DoneName(t), create).0;
    if r.Ok? then {r.value} else {}
  }

  /** The index of the first type whose done tag cannot be ensured, or the
      number of types when all can. */
  function FirstUnresolved(types: seq<string>, base: TagCache, create: string -> Result<int, Error>): (k: nat)
    ensures k <= |types|
    ensures forall j :: 0 <= j < k ==> Ensure(base, DoneName(types[j]), create).0.Ok?
    ensures k < |types| ==> Ensure(base, DoneName(types[k]), create).0.Err?
  {
    if types == [] then 0
    else if Ensure(base, DoneName(types[0]), create).0.Err? then 0
    else 1 + FirstUnresolved(types[1..], base, create)
  }

  /** The trigger ids per type, as the transitions look them up. */
  function ExactTriggers(base: TagCache): string -> set<int>
  {
    t => CachedTriggerIds(base.nameToId, t)
  }

  /** The trigger ids per type, as the corrected transitions look them
      up. */
  function AnyCaseTriggers(base: TagCache, docTags: seq<int>): string -> set<int>
  {
    t => AnyCaseTriggerIds(base.nameToId, base.idToName, docTags, t)
  }

  function Dones(base: TagCache, create: string -> Result<int, Error>): string -> set<int>
  {
    t => DoneIds(base, create, t)
  }

  /** The tag set `_swap_tags` sends, from the caches it started with. */
  function SwapTagSet(doc: Document, types: seq<string>, base: TagCache, create: string -> Result<int, Error>): set<int>
  {
    DiscardAdd(SetOf(doc.tags), types, ExactTriggers(base), Dones(base, create))
  }

  /** The create calls a transition may make: one per done tag. */
  function DoneTagCreations(types: seq<string>): set<Request>
  {
    set t | t in types :: Request.CreateTag(DoneName(t))
  }

  /** What the loop of `_swap_tags` computes from the caches it meets:
      the tag set, the error that stopped it if any, the create calls it
      made, and the caches it leaves. */
  datatype Run = Run(current: set<int>, failure: Option<Error>, creates: seq<Request>, cache: TagCache)

  function SwapRun(cache: TagCache, current: set<int>, types: seq<string>, create: string -> Result<int, Error>): Run
    decreases |types|
  {
    if types == [] then Run(current, None, [], cache)
    else
      var t := types[0];
      var next := current - CachedTriggerIds(cache.nameToId, t);
      var created := if DoneName(t) in cache.nameToId then [] else [Request.CreateTag(DoneName(t))];
      var (e, after) := Ensure(cache, DoneName(t), create);
      if e.Err? then Run(next, Some(e.error), created, after)
      else
        var rest := SwapRun(after, next + {e.value}, types[1..], create);
        rest.(creates := created + rest.creates)
  }

  /** One turn of the loop of `_swap_tags`: discard the id cached under
      `stamp:<type>`, if any, then ensure and add the done tag. */
  method RetagOne(stampType: string, current: set<int>, resolver: TagResolver, client: PaperlessClient)
    returns (next: set<int>, failure: Option<Error>)
    requires resolver.client == client
    modifies resolver, client
    ensures resolver.tags == old(resolver.tags)
    ensures var (e, after) := Ensure(old(resolver.Cache()), DoneName(stampType), client.createTagReply);
      && resolver.Cache() == after
      && (e.Err? ==> failure == Some(e.error) && next == current - CachedTriggerIds(old(resolver.nameToId), stampType))
      && (e.Ok? ==>
            failure == None && next == (current - CachedTriggerIds(old(resolver.nameToId), stampType)) + {e.value})
    ensures client.requests == old(client.requests) +
      (if DoneName(stampType) in old(resolver.nameToId) then [] else [Request.CreateTag(DoneName(stampType))])
  {
    next := current;
    var triggerName := TriggerName(stampType);
    if triggerName in resolver.nameToId {
      next := next - {resolver.nameToId[triggerName]};
    }
    var doneId := resolver.EnsureTag(DoneName(stampType));
    if doneId.Err? {
      return next, Some(doneId.error);
    }
    next := next + {doneId.value};
    failure := None;
  }

  /** SwapRun one type further along. */
  lemma SwapRunStep(cache: TagCache, current: set<int>, types: seq<string>, i: nat,
                    create: string -> Result<int, Error>)
    requires i < |types|
    ensures var t := types[i];
      var (e, after) := Ensure(cache, DoneName(t), create);
      var next := current - CachedTriggerIds(cache.nameToId, t);
      var created := if DoneName(t) in cache.nameToId then [] else [Request.CreateTag(DoneName(t))];
      var run := SwapRun(cache, current, types[i..], create);
      && (e.Err? ==> run == Run(next, Some(e.error), created, after))
      && (e.Ok? ==>
            var rest := SwapRun(after, next + {e.value}, types[i + 1..], create);
            run == rest.(creates := created + rest.creates))
  {
    assert types[i..][0] == types[i];
    assert types[i..][1..] == types[i + 1..];
  }

  /** What the loop of `_swap_tags` still has to do, from type `i` on,
      accounts for the whole run. */
  ghost predicate RunRemains(whole: Run, cache: TagCache, current: set<int>, creates: seq<Request>,
                             types: seq<string>, i: nat, create: string -> Result<int, Error>)
    requires i <= |types|
  {
    var rest := SwapRun(cache, current, types[i..], create);
    && whole.current == rest.current && whole.failure == rest.failure && whole.cache == rest.cache
    && whole.creates == creates + rest.creates
  }

  /** One turn of the loop of `_swap_tags` keeps the rest of the run
      accounting for the whole, or, when it fails, ends the run. */
  lemma RetagAdvance(whole: Run, cache: TagCache, before: set<int>, creates: seq<Request>, types: seq<string>,
                     i: nat, create: string -> Result<int, Error>,
                     after: TagCache, current: set<int>, failure: Option<Error>)
    requires i < |types| && RunRemains(whole, cache, before, creates, types, i, create)
    requires var (e, next) := Ensure(cache, DoneName(types[i]), create);
      && after == next
      && (e.Err? ==> failure == Some(e.error) && current == before - CachedTriggerIds(cache.nameToId, types[i]))
      && (e.Ok? ==>
            failure == None && current == (before - CachedTriggerIds(cache.nameToId, types[i])) + {e.value})
    ensures var created :=
      if DoneName(types[i]) in cache.nameToId then [] else [Request.CreateTag(DoneName(types[i]))];
      && (failure.Some? ==> whole == Run(current, failure, creates + created, after))
      && (failure.None? ==> RunRemains(whole, after, current, creates + created, types, i + 1, create))
  {
    var created := if DoneName(types[i]) in cache.nameToId then [] else [Request.CreateTag(DoneName(types[i]))];
    SwapRunStep(cache, before, types, i, create);
    var rest := SwapRun(after, current, types[i + 1..], create);
    ConcatAssociative(creates, created, rest.creates);
  }

  /** The loop of `_swap_tags`: discard each type's trigger and add its
      done tag, until a done tag cannot be ensured. */
  method Retag(doc: Document, types: seq<string>, resolver: TagResolver, client: PaperlessClient)
    returns (current: set<int>, failure: Option<Error>, ghost creates: seq<Request>)
    requires resolver.client == client
    modifies resolver, client
    ensures resolver.tags == old(resolver.tags)
    ensures client.requests == old(client.requests) + creates
    ensures Run(current, failure, creates, resolver.Cache()) ==
      SwapRun(old(resolver.Cache()), SetOf(doc.tags), types, client.createTagReply)
  {
    ghost var whole := SwapRun(resolver.Cache(), SetOf(doc.tags), types, client.createTagReply);
    current := SetOf(doc.tags);
    creates := [];
    var i := 0;
    assert types[0..] == types;
    while i < |types|
      invariant i <= |types|
      invariant resolver.client == client
      invariant resolver.tags == old(resolver.tags)
      invariant client.requests == old(client.requests) + creates
      invariant RunRemains(whole, resolver.Cache(), current, creates, types, i, client.createTagReply)
    {
      ghost var cache := resolver.Cache();
      ghost var before := current;
      ghost var created :=
        if DoneName(types[i]) in resolver.nameToId then [] else [Request.CreateTag(DoneName(types[i]))];
      current, failure := RetagOne(types[i], current, resolver, client);
      RetagAdvance(whole, cache, before, creates, types, i, client.createTagReply,
                   resolver.Cache(), current, failure);
      creates := creates + created;
      if failure.Some? {
        return;
      }
      i := i + 1;
    }
    assert types[i..] == [];
    failure := None;
    assert creates + [] == creates;
  }

  /** One turn of the loop of `_swap_tags`, on an extension of the caches
      it started with: the ensure answers what it would have answered on
      those caches, and the tag set moves one type along SwapTagSet. */
  lemma SwapStep(cache: TagCache, base: TagCache, create: string -> Result<int, Error>, doc: Document,
                 types: seq<string>, i: nat, current: set<int>)
    requires Extends(cache, base, create) && i < |types|
    requires current == DiscardAdd(SetOf(doc.tags), types[..i], ExactTriggers(base), Dones(base, create))
    ensures var (e, after) := Ensure(cache, DoneName(types[i]), create);
      && e == Ensure(base, DoneName(types[i]), create).0
      && Extends(after, base, create)
      && (e.Ok? ==>
            (current - CachedTriggerIds(cache.nameToId, types[i])) + {e.value}
            == DiscardAdd(SetOf(doc.tags), types[..i + 1], ExactTriggers(base), Dones(base, create)))
  {
    assert types[..i + 1][..i] == types[..i];
    TriggersOnExtension(cache, base, create, types[i]);
    EnsureOnExtension(cache, base, create, types[i]);
  }

  /** Along the loop the caches only gain done tags, and the only calls
      are creations of done tags. */
  lemma {:induction false} SwapRunCaches(cache: TagCache, base: TagCache, current: set<int>, types: seq<string>,
                                         i: nat, create: string -> Result<int, Error>)
    requires i <= |types| && Extends(cache, base, create)
    ensures var run := SwapRun(cache, current, types[i..], create);
      && Extends(run.cache, base, create)
      && (forall n :: 0 <= n < |run.creates| ==> run.creates[n] in DoneTagCreations(types))
    decreases |types| - i
  {
    if i == |types| {
      assert types[i..] == [];
    } else {
      var t := types[i];
      SwapRunStep(cache, current, types, i, create);
      EnsureOnExtension(cache, base, create, t);
      var (e, after) := Ensure(cache, DoneName(t), create);
      assert Request.CreateTag(DoneName(t)) in DoneTagCreations(types);
      if e.Ok? {
        var next := current - CachedTriggerIds(cache.nameToId, t);
        SwapRunCaches(after, base, next + {e.value}, types, i + 1, create);
      }
    }
  }

  /** The loop stops at the first type whose done tag cannot be ensured,
      with that error; otherwise its tag set is SwapTagSet. */
  lemma {:induction false} SwapRunResult(cache: TagCache, base: TagCache, current: set<int>, types: seq<string>,
                                         i: nat, doc: Document, create: string -> Result<int, Error>)
    requires i <= |types| && Extends(cache, base, create)
    requires forall j :: 0 <= j < i ==> Ensure(base, DoneName(types[j]), create).0.Ok?
    requires current == DiscardAdd(SetOf(doc.tags), types[..i], ExactTriggers(base), Dones(base, create))
    ensures var run := SwapRun(cache, current, types[i..], create);
      var k := FirstUnresolved(types, base, create);
      && (k < |types| ==> run.failure == Some(Ensure(base, DoneName(types[k]), create).0.error))
      && (k == |types| ==> run.failure == None && run.current == SwapTagSet(doc, types, base, create))
    decreases |types| - i
  {
    var k := FirstUnresolved(types, base, create);
    if i == |types| {
      assert types[..i] == types;
      assert types[i..] == [];
    } else {
      var t := types[i];
      SwapRunStep(cache, current, types, i, create);
      SwapStep(cache, base, create, doc, types, i, current);
      var (e, after) := Ensure(cache, DoneName(t), create);
      if e.Ok? {
        var next := (current - CachedTriggerIds(cache.nameToId, t)) + {e.value};
        SwapRunResult(after, base, next, types, i + 1, doc, create);
      } else {
        assert k == i;
      }
    }
  }

  /** What the loop computes, read against the caches it started with:
      the caches only gain done tags; the loop stops at the first type
      whose done tag cannot be ensured, with that error; otherwise the tag
      set is SwapTagSet; and the only calls are creations of done tags. */
  lemma SwapRunMeaning(doc: Document, types: seq<string>, base: TagCache, create: string -> Result<int, Error>)
    ensures var run := SwapRun(base, SetOf(doc.tags), types, create);
      var k := FirstUnresolved(types, base, create);
      && Extends(run.cache, base, create)
      && (forall n :: 0 <= n < |run.creates| ==> run.creates[n] in DoneTagCreations(types))
      && (k < |types| ==> run.failure == Some(Ensure(base, DoneName(types[k]), create).0.error))
      && (k == |types| ==> run.failure == None && run.current == SwapTagSet(doc, types, base, create))
  {
    assert types[..0] == [] && types[0..] == types;
    SwapRunCaches(base, base, SetOf(doc.tags), types, 0, create);
    SwapRunResult(base, base, SetOf(doc.tags), types, 0, doc, create);
  }

  /** The answer, the calls and the caches `_swap_tags` ends with: the
      loop's calls, then, unless a done tag could not be ensured, one
      update with the sorted tag set. */
  ghost function SwapOutcome(doc: Document, types: seq<string>, base: TagCache, client: PaperlessClient)
    : (Result<(), Error>, seq<Request>, TagCache)
  {
    var run := SwapRun(base, SetOf(doc.tags), types, client.createTagReply);
    if run.failure.Some? then (Err(run.failure.value), run.creates, run.cache)
    else
      var sent := SortedSeq(run.current);
      (client.updateTagsReply(doc.id, sent), run.creates + [UpdateTags(doc.id, sent)], run.cache)
  }

  /** `_swap_tags(document, stamp_types, tag_resolver, client)` */
  method SwapTags(doc: Document, types: seq<string>, resolver: TagResolver, client: PaperlessClient)
    returns (r: Result<(), Error>)
    requires resolver.client == client
    modifies resolver, client
    ensures resolver.tags == old(resolver.tags)
    ensures var (outcome, calls, after) := SwapOutcome(doc, types, old(resolver.Cache()), client);
      r == outcome && client.requests == old(client.requests) + calls && resolver.Cache() == after
  {
    var current, failure, creates := Retag(doc, types, resolver, client);
    if failure.Some? {
      return Err(failure.value);
    }
    var sent := SortedIds(current);
    r := client.UpdateDocumentTags(doc.id, sent);
  }

  /** What `_swap_tags` does, read against the caches it started with: the
      caches only gain done tags; if some done tag cannot be ensured, the
      first such error is raised after creations only; otherwise every
      call but the last creates a done tag, and the last is the one update,
      with the sorted ids of SwapTagSet. */
  lemma SwapOutcomeMeaning(doc: Document, types: seq<string>, base: TagCache, client: PaperlessClient)
    ensures var (r, calls, after) := SwapOutcome(doc, types, base, client);
      var create := client.createTagReply;
      var k := FirstUnresolved(types, base, create);
      && Extends(after, base, create)
      && (k < |types| ==>
            && r == Err(Ensure(base, DoneName(types[k]), create).0.error)
            && forall n :: 0 <= n < |calls| ==> calls[n] in DoneTagCreations(types))
      && (k == |types| ==>
            var sent := SortedSeq(SwapTagSet(doc, types, base, create));
            && |calls| > 0 && calls[|calls| - 1] == UpdateTags(doc.id, sent)
            && r == client.updateTagsReply(doc.id, sent)
            && forall n :: 0 <= n < |calls| - 1 ==> calls[n] in DoneTagCreations(types))
  {
    SwapRunMeaning(doc, types, base, client.createTagReply);
  }

  /** What `_swap_tags` promises about the tags it sends when every done
      tag resolves: unrelated tags stay, only done ids are added, and with
      no done id among the trigger ids the result is
      `(tags - triggers) + done ids`. */
  lemma SwapTagSetResult(doc: Document, types: seq<string>, base: TagCache, create: string -> Result<int, Error>)
    ensures var sent := SwapTagSet(doc, types, base, create);
      var triggers := UnionOver(types, ExactTriggers(base));
      var dones := UnionOver(types, Dones(base, create));
      && SetOf(doc.tags) - triggers <= sent
      && sent <= SetOf(doc.tags) + dones
      && (dones !! triggers ==> sent == (SetOf(doc.tags) - triggers) + dones)
  {
    DiscardAddResult(SetOf(doc.tags), types, ExactTriggers(base), Dones(base, create));
  }

  /** Every done tag of the types is in the set sent, when no done id is
      also a trigger id. */
  lemma SwapTagSetHasDoneTags(doc: Document, types: seq<string>, base: TagCache,
                              create: string -> Result<int, Error>, i: nat)
    requires i < |types| && FirstUnresolved(types, base, create) == |types|
    requires UnionOver(types, Dones(base, create)) !! UnionOver(types, ExactTriggers(base))
    ensures Ensure(base, DoneName(types[i]), create).0.value in SwapTagSet(doc, types, base, create)
  {
    SwapTagSetResult(doc, types, base, create);
    UnionOverMember(types, Dones(base, create), i);
  }

  /** The tag cached under exactly `stamp:<t>` is not sent back, for any
      type `t` swapped, unless that id is also a done id. */
  lemma ExactTriggerRemoved(doc: Document, types: seq<string>, base: TagCache,
                            create: string -> Result<int, Error>, i: nat)
    requires i < |types| && TriggerName(types[i]) in base.nameToId
    requires base.nameToId[TriggerName(types[i])] !in UnionOver(types, Dones(base, create))
    ensures base.nameToId[TriggerName(types[i])] !in SwapTagSet(doc, types, base, create)
  {
    var id := base.nameToId[TriggerName(types[i])];
    UnionOverMember(types, ExactTriggers(base), i);
    assert id in ExactTriggers(base)(types[i]);
    DiscardAddTriggersGone(SetOf(doc.tags), types, ExactTriggers(base), Dones(base, create), id);
  }

  /** An id that is some type's trigger and no type's done id is gone
      after the discard-and-add. */
  lemma {:induction false} DiscardAddTriggersGone(current: set<int>, types: seq<string>, trig: string -> set<int>,
                                                   done: string -> set<int>, id: int)
    requires id in UnionOver(types, trig) && id !in UnionOver(types, done)
    ensures id !in DiscardAdd(current, types, trig, done)
  {
    var init := types[..|types| - 1];
    var t := types[|types| - 1];
    if id !in trig(t) {
      DiscardAddTriggersGone(current, init, trig, done, id);
    }
  }

  /** Removing more per type leaves no more behind. */
  lemma {:induction false} DiscardAddAntitone(current: set<int>, types: seq<string>, small: string -> set<int>,
                                               big: string -> set<int>, done: string -> set<int>)
    requires forall t :: small(t) <= big(t)
    ensures DiscardAdd(current, types, big, done) <= DiscardAdd(current, types, small, done)
  {
    if types != [] {
      DiscardAddAntitone(current, types[..|types| - 1], small, big, done);
    }
  }

  // ---------------------------------------------------------------------
  // The finding: triggers in another case are left in place as written
  // ---------------------------------------------------------------------

  /** The corrected tag set for `_swap_tags`: every tag of the document
      that asks for a swapped type is discarded, in whatever case. */
  function SwapTagSetCorrected(doc: Document, types: seq<string>, base: TagCache,
                               create: string -> Result<int, Error>): set<int>
  {
    DiscardAdd(SetOf(doc.tags), types, AnyCaseTriggers(base, doc.tags), Dones(base, create))
  }

  /** With the types read off the document itself, every tag of the
      document that asks for a stamp, in whatever case, is among the
      trigger ids the correction removes. */
  lemma {:induction false} DocumentTriggersAreRemoved(doc: Document, base: TagCache, id: int)
    requires id in doc.tags && TagType(base.idToName, id).Some?
    ensures id in UnionOver(StampTypes(doc.tags, base.idToName), AnyCaseTriggers(base, doc.tags))
  {
    var types := StampTypes(doc.tags, base.idToName);
    var t := TagType(base.idToName, id).value;
    var p :| 0 <= p < |doc.tags| && doc.tags[p] == id;
    StampTypesMembership(doc.tags, base.idToName, t);
    var i :| 0 <= i < |types| && types[i] == t;
    UnionOverMember(types, AnyCaseTriggers(base, doc.tags), i);
    assert id in AnyCaseTriggers(base, doc.tags)(t);
  }

  /** So the corrected swap sends back no tag of the document that asks
      for a stamp, unless that id is also a done id. */
  lemma NoTriggerSurvivesSwap(doc: Document, base: TagCache, create: string -> Result<int, Error>, id: int)
    requires id in doc.tags && TagType(base.idToName, id).Some?
    ensures var types := StampTypes(doc.tags, base.idToName);
      id !in SwapTagSetCorrected(doc, types, base, create) || id in UnionOver(types, Dones(base, create))
  {
    var types := StampTypes(doc.tags, base.idToName);
    DocumentTriggersAreRemoved(doc, base, id);
    if id !in UnionOver(types, Dones(base, create)) {
      DiscardAddTriggersGone(SetOf(doc.tags), types, AnyCaseTriggers(base, doc.tags), Dones(base, create), id);
    }
  }

  /** The correction only removes more: it sends a subset of what
      `_swap_tags` sends. */
  lemma CorrectedSwapRemovesMore(doc: Document, types: seq<string>, base: TagCache,
                                 create: string -> Result<int, Error>)
    ensures SwapTagSetCorrected(doc, types, base, create) <= SwapTagSet(doc, types, base, create)
  {
    DiscardAddAntitone(SetOf(doc.tags), types, ExactTriggers(base), AnyCaseTriggers(base, doc.tags),
                       Dones(base, create));
  }

  /** `STAMP:paid` asks for the type `paid`. */
  lemma UpperCaseTriggerType()
    ensures TriggerType("STAMP:paid") == Some("paid")
  {
    assert Lower("STAMP:") == StampTagPrefix by {
      forall i | 0 <= i < 6 ensures Lower("STAMP:")[i] == StampTagPrefix[i] {
      }
    }
    TriggerTypeIgnoresPrefixCase("STAMP:", "paid");
    TriggerTypeOfTriggerName("paid");
    assert "STAMP:" + "paid" == "STAMP:paid";
  }

  /** A document tagged `STAMP:paid` (id 7), and the caches after
      `stamped:paid` (id 8) was ensured. */
  const ExampleDoc := Document(42, None, [7], [], None)
  const ExampleCache := TagCache(map["STAMP:paid" := 7, "stamped:paid" := 8], map[7 := "STAMP:paid", 8 := "stamped:paid"])

  lemma ExampleTypes()
    ensures StampTypes(ExampleDoc.tags, ExampleCache.idToName) == ["paid"]
  {
    UpperCaseTriggerType();
    assert TagType(ExampleCache.idToName, 7) == Some("paid");
    assert ExampleDoc.tags[..0] == [];
  }

  lemma ExampleTriggers()
    ensures AnyCaseTriggers(ExampleCache, ExampleDoc.tags)("paid") == {7}
  {
    UpperCaseTriggerType();
    assert TagType(ExampleCache.idToName, 7) == Some("paid");
    ExampleExactTrigger();
  }

  lemma ExampleLookups()
    ensures TriggerName("paid") !in ExampleCache.nameToId
    ensures DoneName("paid") in ExampleCache.nameToId && ExampleCache.nameToId[DoneName("paid")] == 8
  {
    assert TriggerName("paid") == "stamp:paid";
    assert "stamp:paid" != "STAMP:paid" by { assert "stamp:paid"[0] != "STAMP:paid"[0]; }
    assert "stamp:paid" != "stamped:paid" by { assert "stamp:paid"[5] != "stamped:paid"[5]; }
    assert DoneName("paid") == "stamped:paid";
  }

  /** The exact name `stamp:paid` is not cached. */
  lemma ExampleExactTrigger()
    ensures CachedTriggerIds(ExampleCache.nameToId, "paid") == {}
  {
    ExampleLookups();
  }

  /** `stamped:paid` is answered from the cache. */
  lemma ExampleDone(create: string -> Result<int, Error>)
    ensures DoneIds(ExampleCache, create, "paid") == {8}
  {
    ExampleLookups();
  }

  lemma UnionOverSingle(t: string, f: string -> set<int>)
    ensures UnionOver([t], f) == f(t)
  {
    assert [t][..0] == [];
  }

  lemma ExampleSets(create: string -> Result<int, Error>)
    ensures SwapTagSet(ExampleDoc, ["paid"], ExampleCache, create) ==
            (({7} - CachedTriggerIds(ExampleCache.nameToId, "paid")) + DoneIds(ExampleCache, create, "paid"))
    ensures SwapTagSetCorrected(ExampleDoc, ["paid"], ExampleCache, create) ==
            (({7} - AnyCaseTriggers(ExampleCache, ExampleDoc.tags)("paid")) + DoneIds(ExampleCache, create, "paid"))
  {
    assert ["paid"][..0] == [];
    assert SetOf(ExampleDoc.tags) == {7};
  }

  /** The tag `STAMP:paid` makes the document stampable as type `paid`,
      but the lookup of `stamp:paid` finds nothing, so `_swap_tags` sends
      tag 7 back next to `stamped:paid` and the document is stamped again
      on the next poll. The corrected set drops it. */
  lemma AsWrittenKeepsUpperCaseTrigger(create: string -> Result<int, Error>)
    ensures StampTypes(ExampleDoc.tags, ExampleCache.idToName) == ["paid"]
    ensures SwapTagSet(ExampleDoc, ["paid"], ExampleCache, create) == {7, 8}
    ensures SwapTagSetCorrected(ExampleDoc, ["paid"], ExampleCache, create) == {8}
  {
    ExampleTypes();
    ExampleAsWrittenSet(create);
    ExampleCorrectedSet(create);
  }

  lemma ExampleAsWrittenSet(create: string -> Result<int, Error>)
    ensures SwapTagSet(ExampleDoc, ["paid"], ExampleCache, create) == {7, 8}
  {
    ExampleSets(create);
    ExampleDone(create);
    ExampleExactTrigger();
  }

  lemma ExampleCorrectedSet(create: string -> Result<int, Error>)
    ensures SwapTagSetCorrected(ExampleDoc, ["paid"], ExampleCache, create) == {8}
  {
    ExampleSets(create);
    ExampleDone(create);
    ExampleTriggers();
  }

  // ---------------------------------------------------------------------
  // _handle_error
  // ---------------------------------------------------------------------

  /** The tags `_handle_error` sends, before the error tag is added. */
  function ErrorTagSet(doc: Document, types: seq<string>, base: TagCache): set<int>
  {
    SetOf(doc.tags) - UnionOver(types, ExactTriggers(base))
  }

  function ErrorNote(message: string): string { NotePrefix + message }

  /** The answer, the calls and the caches `_handle_error` ends with. */
  ghost function ErrorOutcome(doc: Document, types: seq<string>, message: string, base: TagCache,
                              client: PaperlessClient): (Result<(), Error>, seq<Request>, TagCache)
  {
    var (e, after) := Ensure(base, ErrorTagName, client.createTagReply);
    var created := if ErrorTagName in base.nameToId then [] else [Request.CreateTag(ErrorTagName)];
    if e.Err? then (Err(e.error), created, after)
    else
      var sent := SortedSeq(ErrorTagSet(doc, types, base) + {e.value});
      var update := client.updateTagsReply(doc.id, sent);
      if update.Err? && !IsPaperlessStampError(update.error) then
        (update, created + [UpdateTags(doc.id, sent)], after)
      else
        var note := client.addNoteReply(doc.id, ErrorNote(message));
        (if note.Err? && !IsPaperlessStampError(note.error) then note else Ok(()),
         created + [UpdateTags(doc.id, sent), Request.AddNote(doc.id, ErrorNote(message))],
         after)
  }

  /** `_handle_error(document, stamp_types, error_message, tag_resolver,
      client)`: discard each type's trigger, add `stamp:error`, send the
      tags, then add the note. */
  method HandleError(doc: Document, types: seq<string>, message: string, resolver: TagResolver,
                     client: PaperlessClient) returns (r: Result<(), Error>)
    requires resolver.client == client
    modifies resolver, client
    ensures resolver.tags == old(resolver.tags)
    ensures var (outcome, calls, after) := ErrorOutcome(doc, types, message, old(resolver.Cache()), client);
      r == outcome && client.requests == old(client.requests) + calls && resolver.Cache() == after
  {
    ghost var base := resolver.Cache();
    var current := SetOf(doc.tags);
    for i := 0 to |types|
      invariant current == SetOf(doc.tags) - UnionOver(types[..i], ExactTriggers(base))
    {
      assert types[..i + 1][..i] == types[..i];
      var triggerName := TriggerName(types[i]);
      if triggerName in resolver.nameToId {
        current := current - {resolver.nameToId[triggerName]};
      }
    }
    assert types[..|types|] == types;
    assert current == ErrorTagSet(doc, types, base);
    ghost var created := if ErrorTagName in resolver.nameToId then [] else [Request.CreateTag(ErrorTagName)];
    var errorTag := resolver.EnsureTag(ErrorTagName);
    if errorTag.Err? {
      return Err(errorTag.error);
    }
    current := current + {errorTag.value};
    var sent := SortedIds(current);
    var update := client.UpdateDocumentTags(doc.id, sent);
    ConcatAssociative(old(client.requests), created, [UpdateTags(doc.id, sent)]);
    if update.Err? && !IsPaperlessStampError(update.error) {
      return update;
    }
    var note := client.AddNote(doc.id, NotePrefix + message);
    ConcatAssociative(old(client.requests) + created, [UpdateTags(doc.id, sent)], [Request.AddNote(doc.id, ErrorNote(message))]);
    ConcatAssociative(old(client.requests), created, [UpdateTags(doc.id, sent), Request.AddNote(doc.id, ErrorNote(message))]);
    if note.Err? && !IsPaperlessStampError(note.error) {
      return note;
    }
    r := Ok(());
  }

  /** What `_handle_error` promises: it fails only when `stamp:error`
      cannot be ensured or a call raises something outside the hierarchy;
      otherwise it sends, sorted, the error tag and every tag that is no
      type's trigger, and then adds the note exactly when the update
      succeeded or raised an error of the hierarchy, which it swallows. */
  lemma ErrorOutcomeMeaning(doc: Document, types: seq<string>, message: string, base: TagCache,
                            client: PaperlessClient)
    ensures var (r, calls, after) := ErrorOutcome(doc, types, message, base, client);
      var (e, _) := Ensure(base, ErrorTagName, client.createTagReply);
      && (r.Err? ==> e.Err? || !IsPaperlessStampError(r.error))
      && (e.Ok? ==>
            var sent := SortedSeq(ErrorTagSet(doc, types, base) + {e.value});
            && StrictlyIncreasing(sent)
            && e.value in sent
            && (forall x :: x in doc.tags && x !in UnionOver(types, ExactTriggers(base)) ==> x in sent)
            && (forall x :: x in sent ==> x in doc.tags || x == e.value)
            && UpdateTags(doc.id, sent) in calls
            && var update := client.updateTagsReply(doc.id, sent);
            (Request.AddNote(doc.id, ErrorNote(message)) in calls <==> (update.Ok? || IsPaperlessStampError(update.error))))
  {
    var (e, _) := Ensure(base, ErrorTagName, client.createTagReply);
    if e.Ok? {
      ErrorTagSetResult(doc, types, base, e.value);
    }
  }

  /** What `_handle_error` sends: the error tag, every tag that is no
      type's trigger, and nothing else; the tag cached under exactly
      `stamp:<t>` is gone unless it is the error tag itself. */
  lemma ErrorTagSetResult(doc: Document, types: seq<string>, base: TagCache, errorId: int)
    ensures var sent := ErrorTagSet(doc, types, base) + {errorId};
      && errorId in sent
      && (forall x :: x in doc.tags && x !in UnionOver(types, ExactTriggers(base)) ==> x in sent)
      && sent <= SetOf(doc.tags) + {errorId}
      && (forall i ::
            (0 <= i < |types| && TriggerName(types[i]) in base.nameToId && base.nameToId[TriggerName(types[i])] != errorId)
            ==> base.nameToId[TriggerName(types[i])] !in sent)
  {
    forall i | 0 <= i < |types| && TriggerName(types[i]) in base.nameToId
      ensures base.nameToId[TriggerName(types[i])] in UnionOver(types, ExactTriggers(base))
    {
      UnionOverMember(types, ExactTriggers(base), i);
      assert base.nameToId[TriggerName(types[i])] in ExactTriggers(base)(types[i]);
    }
  }

  /** The note names the error: it is the fixed prefix followed by the
      message. */
  lemma ErrorNoteCarriesMessage(message: string)
    ensures StartsWith(ErrorNote(message), NotePrefix)
    ensures ErrorNote(message)[|NotePrefix|..] == message
  {
    assert ErrorNote(message)[..|NotePrefix|] == NotePrefix;
  }

  /** The corrected tag set for `_handle_error`, before the error tag is
      added: every tag of the document that asks for a type is discarded,
      in whatever case. */
  function ErrorTagSetCorrected(doc: Document, types: seq<string>, base: TagCache): set<int>
  {
    SetOf(doc.tags) - UnionOver(types, AnyCaseTriggers(base, doc.tags))
  }

  /** The corrected error path sends back no tag of the document that
      asks for a stamp. */
  lemma NoTriggerSurvivesError(doc: Document, base: TagCache, id: int)
    requires id in doc.tags && TagType(base.idToName, id).Some?
    ensures id !in ErrorTagSetCorrected(doc, StampTypes(doc.tags, base.idToName), base)
  {
    DocumentTriggersAreRemoved(doc, base, id);
  }

  /** The correction only removes more: it keeps a subset of what
      `_handle_error` keeps. */
  lemma {:induction false} CorrectedErrorRemovesMore(doc: Document, types: seq<string>, base: TagCache)
    ensures ErrorTagSetCorrected(doc, types, base) <= ErrorTagSet(doc, types, base)
  {
    if types != [] {
      CorrectedErrorRemovesMore(doc, types[..|types| - 1], base);
    }
  }

  /** A failed `STAMP:paid` document keeps tag 7 next to `stamp:error`, so
      it is picked up and fails again, with another note, on every poll.
      The corrected set drops it. */
  lemma AsWrittenErrorKeepsUpperCaseTrigger()
    ensures StampTypes(ExampleDoc.tags, ExampleCache.idToName) == ["paid"]
    ensures ErrorTagSet(ExampleDoc, ["paid"], ExampleCache) == {7}
    ensures ErrorTagSetCorrected(ExampleDoc, ["paid"], ExampleCache) == {}
  {
    ExampleTypes();
    assert SetOf(ExampleDoc.tags) == {7};
    UnionOverSingle("paid", ExactTriggers(ExampleCache));
    UnionOverSingle("paid", AnyCaseTriggers(ExampleCache, ExampleDoc.tags));
    ExampleExactTrigger();
    ExampleTriggers();
  }
}
