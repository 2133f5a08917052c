/** The multiplexer's index of key filters. However owners come, change their
    filters and leave, a match of a key and the stamps it leaves say of each owner
    what a scan of its own declared filters says. */
module KeyPatterns {
  import opened Common
  import opened KeyItems
  import opened TypeIndex
  import opened KeyIndex

  datatype OwnerState = OwnerState(live: bool, taken: nat, types: seq<MessageType>, filters: seq<Filter>)

  const NO_STATE := OwnerState(false, 0, [], [])

  function TypesOf(filters: seq<Filter>): (types: seq<MessageType>)
    ensures |types| == |filters| && forall i :: 0 <= i < |types| ==> types[i] == filters[i].messageType
  {
    seq(|filters|, i requires 0 <= i < |filters| => filters[i].messageType)
  }

  ghost predicate OwnerOk(compiles: string -> bool, state: OwnerState, held: seq<Filter>, evaluations: nat) {
    && state.filters == held && state.types == TypesOf(held) && Acceptable(compiles, held)
    && state.taken <= evaluations && (!state.live ==> state == NO_STATE)
  }

  ghost predicate OwnersOk(compiles: string -> bool, owners: seq<OwnerState>, held: seq<seq<Filter>>, evaluations: nat) {
    |held| == |owners| && forall o :: 0 <= o < |owners| ==> OwnerOk(compiles, owners[o], held[o], evaluations)
  }

  /** The numbers given back, each once. */
  ghost predicate FreeOwnersOk(owners: seq<OwnerState>, free: seq<Owner>) {
    && (forall i :: 0 <= i < |free| ==> free[i] < |owners| && !owners[free[i]].live)
    && (forall i, j :: 0 <= i < j < |free| ==> free[i] != free[j])
    && (forall o :: 0 <= o < |owners| && !owners[o].live ==> o in free)
  }

  lemma MoreOwnersOk(types: map<MessageType, Index>, held: seq<seq<Filter>>)
    requires IndexOk(types, held)
    ensures IndexOk(types, held + [[]])
  {
    hide Shape, Uses, TotalUses;
    forall t | t in types ensures TypeOk(types[t], t, held + [[]]) {
      assert TypeOk(types[t], t, held);
      TotalUsesMore(held, t);
      ShapeTexts(types[t]);
      assert forall item, o :: HeldTimes(held + [[]], o, t, item) == HeldTimes(held, o, t, item);
    }
    forall t | t !in types ensures TotalUses(held + [[]], t) == 0 {
      TotalUsesMore(held, t);
    }
  }

  class KeyPatterns {
    var types: map<MessageType, Index>
    var owners: seq<OwnerState>
    var freeOwners: seq<Owner>
    var evaluations: nat

    const fullMatch: Matcher
    const compiles: string -> bool

    /** The filters each owner holds in the index: those it declared, between calls. */
    ghost var held: seq<seq<Filter>>

    ghost predicate Valid()
      reads this
    {
      && MatcherOk(fullMatch) && IndexOk(types, held) && CompiledOk(compiles, types)
      && OwnersOk(compiles, owners, held, evaluations) && FreeOwnersOk(owners, freeOwners)
    }

    constructor (fullMatch: Matcher, compiles: string -> bool)
      requires MatcherOk(fullMatch)
      ensures Valid() && types == map[] && owners == []
    {
      this.fullMatch, this.compiles := fullMatch, compiles;
      types, owners, freeOwners, evaluations, held := map[], [], [], 0, [];
    }

    method AddOwner() returns (owner: Owner)
      requires Valid()
      modifies `owners, `freeOwners, `held
      ensures Valid() && types == old(types)
      ensures owner < |owners| && owners[owner] == OwnerState(true, 0, [], [])
      ensures owner < |old(owners)| ==> !old(owners[owner]).live && owners == old(owners)[owner := owners[owner]]
      ensures owner >= |old(owners)| ==> owners == old(owners) + [owners[owner]]
    {
      hide IndexOk, CompiledOk, MatcherOk, Acceptable;
      if freeOwners == [] {
        owner := |owners|;
        MoreOwnersOk(types, held);
        NothingDeclared(compiles);
        owners := owners + [NO_STATE];
        held := held + [[]];
      } else {
        owner := freeOwners[|freeOwners| - 1];
        assert OwnerOk(compiles, owners[owner], held[owner], evaluations);
        forall o | o in freeOwners && o != owner ensures o in freeOwners[..|freeOwners| - 1] {
          ButLast(freeOwners, o);
        }
        freeOwners := freeOwners[..|freeOwners| - 1];
      }
      owners := owners[owner := owners[owner].(live := true)];
    }

    // Taking filters

    /** One pattern of a filter begun; what it needed compiled leaves those kept. */
    method TakeOne(owner: Owner, t: MessageType, pattern: string, kept: Compiled,
                   ghost front: seq<Filter>, ghost patterns: seq<string>) returns (now: Compiled)
      requires owner < |held| && IndexOk(types, held) && t in types && held[owner] == front + [Filter(t, patterns)]
      requires Ready(types, kept, t, pattern) && CompiledOk(compiles, types) && KeptOk(compiles, kept)
      modifies `types, `held
      ensures IndexOk(types, held) && t in types
      ensures held == old(held)[owner := front + [Filter(t, patterns + [pattern])]]
      ensures CompiledOk(compiles, types) && KeptOk(compiles, now) && StillReady(old(types), kept, types, now)
    {
      hide IndexOk, Shape, Changed, Exact, CompiledOk, KeptOk, StillReady;
      TypeShape(types, held, t);
      var compiled: Option<string> := if t in kept && pattern in kept[t] then Some(pattern) else None;
      var y := TakePattern(types[t], owner, pattern, compiled);
      TakeOk(types, held, owner, front, t, patterns, pattern, y);
      TakenReady(compiles, types, kept, t, pattern, y);
      now := kept;
      if Exact(pattern).None? && pattern !in types[t].slotByText {
        now := now[t := now[t] - {pattern}];
      }
      types := types[t := y];
      held := held[owner := front + [Filter(t, patterns + [pattern])]];
    }

    method TakeFilter(owner: Owner, filter: Filter, kept: Compiled) returns (now: Compiled)
      requires owner < |held| && IndexOk(types, held) && AllReady(types, kept, [filter])
      requires CompiledOk(compiles, types) && KeptOk(compiles, kept)
      modifies `types, `held
      ensures IndexOk(types, held) && held == old(held)[owner := old(held[owner]) + [filter]]
      ensures CompiledOk(compiles, types) && KeptOk(compiles, now) && StillReady(old(types), kept, types, now)
    {
      hide IndexOk, Ready, CompiledOk, KeptOk, StillReady;
      var t := filter.messageType;
      ghost var front := held[owner];
      OpenOk(types, held, owner, t);
      OpenReady(compiles, types, kept, t);
      now := kept;
      types := types[t := (var x := if t in types then types[t] else EMPTY; x.(owners := x.owners + 1))];
      held := held[owner := front + [Filter(t, [])]];
      for j := 0 to |filter.patterns|
        invariant IndexOk(types, held) && CompiledOk(compiles, types) && KeptOk(compiles, now)
        invariant held == old(held)[owner := front + [Filter(t, filter.patterns[..j])]] && t in types
        invariant StillReady(old(types), kept, types, now)
      {
        ghost var types0, kept0 := types, now;
        assert Ready(old(types), kept, [filter][0].messageType, [filter][0].patterns[j]);
        ReadyStill(old(types), kept, types, now, t, filter.patterns[j]);
        now := TakeOne(owner, t, filter.patterns[j], now, front, filter.patterns[..j]);
        StillReadyTwice(old(types), kept, types0, kept0, types, now);
        assert filter.patterns[..j + 1] == filter.patterns[..j] + [filter.patterns[j]];
      }
      assert filter.patterns[..|filter.patterns|] == filter.patterns;
    }

    method Take(owner: Owner, filters: seq<Filter>, kept: Compiled)
      requires owner < |held| && IndexOk(types, held) && AllReady(types, kept, filters)
      requires CompiledOk(compiles, types) && KeptOk(compiles, kept)
      modifies `types, `held
      ensures IndexOk(types, held) && CompiledOk(compiles, types)
      ensures held == old(held)[owner := old(held[owner]) + filters]
    {
      hide IndexOk, CompiledOk, KeptOk, AllReady;
      var now := kept;
      assert old(held[owner]) + filters[..0] == old(held[owner]);
      for i := 0 to |filters|
        invariant IndexOk(types, held) && CompiledOk(compiles, types) && KeptOk(compiles, now)
        invariant held == old(held)[owner := old(held[owner]) + filters[..i]]
        invariant AllReady(types, now, filters)
      {
        ghost var types0, kept0 := types, now;
        OneReady(types, now, filters, i);
        now := TakeFilter(owner, filters[i], now);
        AllStillReady(types0, kept0, types, now, filters);
        assert old(held[owner]) + filters[..i + 1] == old(held[owner]) + filters[..i] + [filters[i]];
      }
      assert filters[..|filters|] == filters;
    }

    // Giving filters back: the type is in the index, as the owner holds a filter for it

    method GiveBackFilter(owner: Owner, filter: Filter, ghost back: seq<Filter>)
      requires owner < |held| && IndexOk(types, held) && held[owner] == [filter] + back && CompiledOk(compiles, types)
      modifies `types, `held
      ensures IndexOk(types, held) && held == old(held)[owner := back] && CompiledOk(compiles, types)
    {
      hide IndexOk, Shape, Changed, CompiledOk;
      var t := filter.messageType;
      for j := 0 to |filter.patterns|
        invariant IndexOk(types, held) && CompiledOk(compiles, types)
        invariant held == old(held)[owner := [Filter(t, filter.patterns[j..])] + back]
      {
        var pattern := filter.patterns[j];
        assert filter.patterns[j..] == [pattern] + filter.patterns[j + 1..];
        HeldIsListed(types, held, owner, t, pattern, filter.patterns[j + 1..], back);
        var y := GiveBackPattern(types[t], owner, pattern);
        GiveOk(types, held, owner, t, pattern, filter.patterns[j + 1..], back, y);
        FewerCompiled(compiles, types, t, Some(y));
        types := types[t := y];
        held := held[owner := [Filter(t, filter.patterns[j + 1..])] + back];
      }
      CloseOk(types, held, owner, t, back);
      var left := types[t].owners - 1;
      FewerCompiled(compiles, types, t, if left == 0 then None else Some(types[t].(owners := left)));
      types := if left == 0 then types - {t} else types[t := types[t].(owners := left)];
      held := held[owner := back];
    }

    method GiveBack(owner: Owner, filters: seq<Filter>, ghost back: seq<Filter>)
      requires owner < |held| && IndexOk(types, held) && held[owner] == filters + back && CompiledOk(compiles, types)
      modifies `types, `held
      ensures IndexOk(types, held) && held == old(held)[owner := back] && CompiledOk(compiles, types)
    {
      hide IndexOk, CompiledOk;
      for i := 0 to |filters|
        invariant IndexOk(types, held) && CompiledOk(compiles, types)
        invariant held == old(held)[owner := filters[i..] + back]
      {
        assert filters[i..] + back == [filters[i]] + (filters[i + 1..] + back);
        GiveBackFilter(owner, filters[i], filters[i + 1..] + back);
      }
      assert filters[|filters|..] + back == back;
    }

    // The operations

    method RemoveOwner(owner: Owner)
      requires Valid()
      modifies `types, `owners, `freeOwners, `held
      ensures Valid()
      ensures var known := owner < |old(owners)| && old(owners[owner]).live;
              if known then owners == old(owners)[owner := NO_STATE] && freeOwners == old(freeOwners) + [owner]
              else owners == old(owners) && freeOwners == old(freeOwners) && types == old(types)
    {
      hide IndexOk, CompiledOk, MatcherOk, Acceptable;
      if owner >= |owners| || !owners[owner].live {
        return;
      }
      assert OwnerOk(compiles, owners[owner], held[owner], evaluations);
      assert held[owner] + [] == held[owner];
      GiveBack(owner, owners[owner].filters, []);
      NothingDeclared(compiles);
      LeavesFree(owners, freeOwners, owner);
      owners := owners[owner := NO_STATE];
      freeOwners := freeOwners + [owner];
    }

    /** The patterns of one filter checked, in their order. */
    method CheckFilter(filter: Filter) returns (ok: bool, compiled: set<string>)
      requires CompiledOk(compiles, types)
      ensures ok == forall j :: 0 <= j < |filter.patterns| ==> PatternOk(compiles, filter.patterns[j])
      ensures forall p :: p in compiled ==> compiles(p)
      ensures ok ==> AllReady(types, map[filter.messageType := compiled], [filter])
    {
      hide Exact, PatternOk;
      compiled := {};
      var t := filter.messageType;
      var known := if t in types then types[t].slotByText.Keys else {};
      for j := 0 to |filter.patterns|
        invariant forall p :: p in compiled ==> compiles(p)
        invariant forall i :: 0 <= i < j ==> PatternOk(compiles, filter.patterns[i])
        invariant forall i :: 0 <= i < j && Exact(filter.patterns[i]).None? ==>
          filter.patterns[i] in known || filter.patterns[i] in compiled
      {
        ok, compiled := CheckPattern(compiles, known, compiled, filter.patterns[j]);
        if !ok {
          return;
        }
      }
      ok := true;
    }

    /** Everything checked before anything changes. */
    method Check(filters: seq<Filter>) returns (ok: bool, kept: Compiled)
      requires CompiledOk(compiles, types)
      ensures ok == Acceptable(compiles, filters)
      ensures ok ==> forall i, j :: 0 <= i < j < |filters| ==> filters[i].messageType != filters[j].messageType
      ensures ok ==> forall i :: 0 <= i < |filters| ==> filters[i].messageType > MAX_META_TYPE
      ensures ok ==> forall i, j :: 0 <= i < |filters| && 0 <= j < |filters[i].patterns| ==>
        |filters[i].patterns[j]| <= MAX_PATTERN_SIZE && (Exact(filters[i].patterns[j]).Some? || compiles(filters[i].patterns[j]))
      ensures ok ==> KeptOk(compiles, kept) && AllReady(types, kept, filters)
    {
      AcceptableIs(compiles, filters);
      hide PatternOk, CompiledOk, Ready;
      kept := map[];
      var seen: set<MessageType> := {};
      for i := 0 to |filters|
        invariant KeptOk(compiles, kept) && kept.Keys == seen
        invariant forall t :: t in seen <==> exists k :: 0 <= k < i && filters[k].messageType == t
        invariant Acceptable(compiles, filters[..i])
        invariant AllReady(types, kept, filters[..i])
      {
        var filter := filters[i];
        assert filters[..i + 1] == filters[..i] + [filter];
        if filter.messageType <= MAX_META_TYPE {
          assert !FilterOk(compiles, filters[i]);
          return false, kept;
        }
        if filter.messageType in seen {
          return false, kept;
        }
        var fine, compiled := CheckFilter(filter);
        if !fine {
          assert !FilterOk(compiles, filters[i]);
          return false, kept;
        }
        MoreKept(types, kept, filters[..i], filter, compiled);
        MoreAcceptable(compiles, filters[..i], filter);
        seen := seen + {filter.messageType};
        kept := kept[filter.messageType := compiled];
      }
      assert filters[..|filters|] == filters;
      ok := true;
    }

    /** Replaces an owner's filters, or changes nothing. */
    method SetFilters(owner: Owner, filters: seq<Filter>) returns (ok: bool)
      requires Valid() && owner < |owners| && owners[owner].live
      modifies `types, `owners, `held
      ensures Valid() && ok == Acceptable(compiles, filters)
      ensures ok ==> owners == old(owners)[owner := OwnerState(true, old(owners[owner]).taken, TypesOf(filters), filters)]
      ensures !ok ==> owners == old(owners) && types == old(types)
    {
      hide IndexOk, CompiledOk, MatcherOk, Acceptable, KeptOk, AllReady;
      var kept: Compiled;
      ok, kept := Check(filters);
      if !ok {
        return;
      }
      assert OwnerOk(compiles, owners[owner], held[owner], evaluations);
      var was := owners[owner].filters;
      owners := owners[owner := owners[owner].(filters := [])];
      Take(owner, filters, kept);
      GiveBack(owner, was, filters);
      owners := owners[owner := owners[owner].(filters := filters, types := TypesOf(filters))];
    }

    /** The owners listed stamped with a match's number. */
    method Stamp(listed: seq<Owner>, evaluation: nat)
      requires forall i :: 0 <= i < |listed| ==> listed[i] < |owners|
      modifies `owners
      ensures owners == Stamped(old(owners), multiset(listed), evaluation)
    {
      hide Stamped;
      assert listed[..0] == [];
      NoneStamped(owners, evaluation);
      for i := 0 to |listed|
        invariant owners == Stamped(old(owners), multiset(listed[..i]), evaluation)
      {
        assert listed[..i + 1] == listed[..i] + [listed[i]];
        StampedLength(old(owners), multiset(listed[..i]), evaluation);
        StampedOne(old(owners), multiset(listed[..i]), listed[i], evaluation);
        owners := owners[listed[i] := owners[listed[i]].(taken := evaluation)];
      }
      assert listed[..|listed|] == listed;
    }

    /** The set's answer, exact or an error. */
    method MatchSet(texts: seq<string>, key: string) returns (answer: SetAnswer)
      ensures answer.Hits? ==>
        && (forall i :: 0 <= i < |answer.indexes| ==>
              answer.indexes[i] < |texts| && fullMatch(texts[answer.indexes[i]], key))
        && (forall n :: 0 <= n < |texts| && fullMatch(texts[n], key) ==> n in answer.indexes)
      ensures answer.NoneMatched? ==> forall n :: 0 <= n < |texts| ==> !fullMatch(texts[n], key)
    {
      var outOfMemory: bool;
      outOfMemory := *;
      if outOfMemory {
        return Error;
      }
      var indexes: seq<nat> := [];
      for n := 0 to |texts|
        invariant forall i :: 0 <= i < |indexes| ==> indexes[i] < n && fullMatch(texts[indexes[i]], key)
        invariant forall m :: 0 <= m < n && fullMatch(texts[m], key) ==> m in indexes
      {
        if fullMatch(texts[n], key) {
          indexes := indexes + [n];
        }
      }
      return if indexes == [] then NoneMatched else Hits(indexes);
    }

    method StampHits(x: Index, key: string, evaluation: nat, indexes: seq<nat>) returns (ghost found: multiset<Owner>)
      requires Shape(x) && InRange(x, |owners|)
      requires IndexesOk(x, indexes)
      modifies `owners
      ensures owners == Stamped(old(owners), found, evaluation)
      ensures forall o: Owner :: o in found <==> HitAmong(x, indexes, |indexes|, o)
    {
      hide Shape, InRange, Stamped, HitAmong;
      found := multiset{};
      NoneStamped(owners, evaluation);
      NoneAmong(x, indexes);
      for i := 0 to |indexes|
        invariant owners == Stamped(old(owners), found, evaluation)
        invariant forall o: Owner :: o in found <==> HitAmong(x, indexes, i, o)
      {
        var holders := x.slots[x.slotByIndex[indexes[i]]].holders;
        StampedTwice(old(owners), found, multiset(holders), evaluation);
        HoldersInRange(x, |old(owners)|, x.slotByIndex[indexes[i]]);
        StampedLength(old(owners), found, evaluation);
        OneMoreHit(x, indexes, i);
        Stamp(holders, evaluation);
        found := found + multiset(holders);
      }
    }

    method StampEach(x: Index, key: string, evaluation: nat) returns (ghost found: multiset<Owner>)
      requires Shape(x) && InRange(x, |owners|)
      modifies `owners
      ensures owners == Stamped(old(owners), found, evaluation)
      ensures forall o: Owner :: o in found <==> Hit(fullMatch, x, key, o)
    {
      hide Shape, InRange, Stamped, HitBelow, Hit;
      found := multiset{};
      NoneStamped(owners, evaluation);
      NothingBelow(fullMatch, x, key);
      for s := 0 to |x.slots|
        invariant owners == Stamped(old(owners), found, evaluation)
        invariant forall o: Owner :: o in found <==> HitBelow(fullMatch, x, key, s, o)
      {
        OneMoreBelow(fullMatch, x, key, s);
        var slot := x.slots[s];
        if slot.regex.Some? && fullMatch(slot.regex.value, key) {
          StampedTwice(old(owners), found, multiset(slot.holders), evaluation);
          HoldersInRange(x, |old(owners)|, s);
          StampedLength(old(owners), found, evaluation);
          Stamp(slot.holders, evaluation);
          found := found + multiset(slot.holders);
        }
      }
    }

    /** The holders of every pattern that takes the key stamped: in one pass by the
        set, or pattern by pattern. */
    method StampHolders(x: Index, key: string, evaluation: nat) returns (ghost found: multiset<Owner>)
      requires Shape(x) && !x.stale && InRange(x, |owners|)
      modifies `owners
      ensures owners == Stamped(old(owners), found, evaluation)
      ensures forall o: Owner :: o in found <==> Hit(fullMatch, x, key, o)
    {
      hide Hit, HitAmong, ExactOk, TextsOk, SlotsOk, FreeOk, InRange;
      if x.set_.Some? {
        var answer := MatchSet(x.set_.value, key);
        if answer.Hits? {
          HitsAreHits(fullMatch, x, key, answer.indexes);
          found := StampHits(x, key, evaluation, answer.indexes);
          return;
        }
        if answer.NoneMatched? {
          NoHits(fullMatch, x, key);
          NoneStamped(owners, evaluation);
          found := multiset{};
          return;
        }
      }
      found := StampEach(x, key, evaluation);
    }

    /** Stamps exactly the owners a scan of the declared filters finds to take the key;
        `filtered` says whether anybody has a filter for the type at all. */
    method Match(t: MessageType, key: string) returns (filtered: bool, evaluation: nat)
      requires Valid()
      modifies `types, `owners, `evaluations
      ensures Valid()
      ensures filtered == exists o :: 0 <= o < |owners| && t in owners[o].types
      ensures !filtered ==> types == old(types) && owners == old(owners) && evaluations == old(evaluations)
      ensures filtered ==> evaluation == evaluations == old(evaluations) + 1
      ensures SameFilters(old(owners), owners)
      ensures filtered ==> forall o :: 0 <= o < |owners| ==>
        (Takes(owners, o, t, evaluation) <==> Declares(fullMatch, owners[o].filters, t, key))
      ensures !filtered ==> forall o :: 0 <= o < |owners| ==> Declares(fullMatch, owners[o].filters, t, key)
    {
      hide IndexOk, CompiledOk, MatcherOk, Acceptable, Shape, InRange, Stamped, Found, Hit, Declares, Takes, FreeOwnersOk, OwnerOk;
      FilteredIs(compiles, types, owners, held, evaluations, t);
      if t !in types {
        NoFilterTakes(fullMatch, compiles, types, owners, held, evaluations, t, key);
        return false, 0;
      }
      IndexInRange(types, held, t);
      ghost var found := multiset{};
      NoneStamped(owners, evaluations + 1);
      evaluations := evaluations + 1;
      evaluation := evaluations;
      if key in types[t].exact {
        ListedInRange(types[t], |owners|, key);
        found := multiset(types[t].exact[key]);
        Stamp(types[t].exact[key], evaluation);
      }
      StampedLength(old(owners), found, evaluation);
      ghost var hits := multiset{};
      if types[t].slotByText != map[] {
        if types[t].stale {
          TypeShape(types, held, t);
          var built := Build(types[t]);
          BuiltOk(compiles, types, held, t, built, |owners|);
          types := types[t := built];
        }
        TypeShape(types, held, t);
        hits := StampHolders(types[t], key, evaluation);
        StampedTwice(old(owners), found, hits, evaluation);
      } else {
        TypeShape(types, held, t);
        NoSlotNoHit(fullMatch, types[t], key);
        NoneStamped(owners, evaluation);
        StampedTwice(old(owners), found, hits, evaluation);
      }
      FoundIs(fullMatch, types[t], key, found, hits);
      StampedIsDeclared(fullMatch, compiles, types, held, old(owners), old(evaluations), t, key, found + hits,
                        freeOwners);
      filtered := true;
    }

    /** Whether an owner takes the key a match was for. */
    method OwnerTakes(owner: Owner, t: MessageType, evaluation: nat) returns (takes: bool)
      ensures takes == Takes(owners, owner, t, evaluation)
    {
      if owner >= |owners| {
        return true;
      }
      var state := owners[owner];
      if state.taken == evaluation {
        return true;
      }
      for i := 0 to |state.types|
        invariant t !in state.types[..i]
      {
        if state.types[i] == t {
          return false;
        }
      }
      return true;
    }
  }

  ghost predicate Takes(owners: seq<OwnerState>, owner: Owner, t: MessageType, evaluation: nat) {
    owner < |owners| ==> owners[owner].taken == evaluation || t !in owners[owner].types
  }

  ghost predicate SameFilters(owners: seq<OwnerState>, now: seq<OwnerState>) {
    |now| == |owners| && forall o :: 0 <= o < |now| ==> now[o] == owners[o].(taken := now[o].taken)
  }

  /** With no owner left, nothing is left of the index. */
  lemma NothingLeft(compiles: string -> bool, types: map<MessageType, Index>, owners: seq<OwnerState>,
                    held: seq<seq<Filter>>, evaluations: nat)
    requires IndexOk(types, held) && OwnersOk(compiles, owners, held, evaluations)
    requires forall o :: 0 <= o < |owners| ==> !owners[o].live
    ensures types == map[]
  {
    forall t ensures t !in types {
      FilteredIs(compiles, types, owners, held, evaluations, t);
      assert forall o :: 0 <= o < |owners| ==> OwnerOk(compiles, owners[o], held[o], evaluations);
    }
  }

  /** RE2::Set's answer for a key. */
  datatype SetAnswer = Hits(indexes: seq<nat>) | NoneMatched | Error

  ghost predicate InRange(x: Index, bound: nat) {
    && (forall s, o :: 0 <= s < |x.slots| && o in x.slots[s].holders ==> o < bound)
    && (forall k, o :: k in x.exact && o in x.exact[k] ==> o < bound)
  }

  lemma StampedOne(owners: seq<OwnerState>, found: multiset<Owner>, owner: Owner, evaluation: nat)
    requires owner < |owners|
    ensures var stamped := Stamped(owners, found, evaluation);
            stamped[owner := stamped[owner].(taken := evaluation)] == Stamped(owners, found + multiset{owner}, evaluation)
  {
  }

  lemma StampedTwice(owners: seq<OwnerState>, found: multiset<Owner>, more: multiset<Owner>, evaluation: nat)
    ensures Stamped(Stamped(owners, found, evaluation), more, evaluation) == Stamped(owners, found + more, evaluation)
  {
  }

  /** Hit by one of the first slots. */
  ghost predicate HitBelow(fullMatch: Matcher, x: Index, key: string, bound: nat, o: Owner)
    requires bound <= |x.slots|
  {
    exists s :: 0 <= s < bound && HitBy(fullMatch, x, key, o, s)
  }

  lemma NothingBelow(fullMatch: Matcher, x: Index, key: string)
    ensures forall o :: !HitBelow(fullMatch, x, key, 0, o)
    ensures forall o :: HitBelow(fullMatch, x, key, |x.slots|, o) <==> Hit(fullMatch, x, key, o)
  {
    hide HitBy;
  }

  lemma OneMoreBelow(fullMatch: Matcher, x: Index, key: string, s: nat)
    requires s < |x.slots|
    ensures forall o :: HitBelow(fullMatch, x, key, s + 1, o) <==>
      HitBelow(fullMatch, x, key, s, o) ||
      (x.slots[s].regex.Some? && fullMatch(x.slots[s].regex.value, key) && o in x.slots[s].holders)
  {
    forall o: Owner
      ensures HitBelow(fullMatch, x, key, s + 1, o) <==>
        HitBelow(fullMatch, x, key, s, o) ||
        (x.slots[s].regex.Some? && fullMatch(x.slots[s].regex.value, key) && o in x.slots[s].holders)
    {
      assert HitBy(fullMatch, x, key, o, s) <==>
        x.slots[s].regex.Some? && fullMatch(x.slots[s].regex.value, key) && o in x.slots[s].holders;
    }
  }

  lemma NoHits(fullMatch: Matcher, x: Index, key: string)
    requires SetOk(x) && !x.stale && x.set_.Some?
    requires forall n :: 0 <= n < |x.set_.value| ==> !fullMatch(x.set_.value[n], key)
    ensures forall o :: !Hit(fullMatch, x, key, o)
  {
    forall s | 0 <= s < |x.slots| && x.slots[s].regex.Some?
      ensures !fullMatch(x.slots[s].regex.value, key)
    {
      var n :| 0 <= n < |x.slotByIndex| && x.slotByIndex[n] == s;
    }
  }

  /** An owner among the holders of the pattern of a hit. */
  ghost predicate HitAt(x: Index, indexes: seq<nat>, k: nat, o: Owner)
    requires k < |indexes| && indexes[k] < |x.slotByIndex| && x.slotByIndex[indexes[k]] < |x.slots|
  {
    o in x.slots[x.slotByIndex[indexes[k]]].holders
  }

  ghost predicate IndexesOk(x: Index, indexes: seq<nat>) {
    forall i :: 0 <= i < |indexes| ==> indexes[i] < |x.slotByIndex| && x.slotByIndex[indexes[i]] < |x.slots|
  }

  /** Among the holders of the patterns of the first hits. */
  ghost predicate HitAmong(x: Index, indexes: seq<nat>, bound: nat, o: Owner)
    requires IndexesOk(x, indexes) && bound <= |indexes|
  {
    exists k :: 0 <= k < bound && HitAt(x, indexes, k, o)
  }

  lemma NoneAmong(x: Index, indexes: seq<nat>)
    requires IndexesOk(x, indexes)
    ensures forall o :: !HitAmong(x, indexes, 0, o)
  {
  }

  lemma OneMoreHit(x: Index, indexes: seq<nat>, k: nat)
    requires IndexesOk(x, indexes) && k < |indexes|
    ensures forall o :: HitAmong(x, indexes, k + 1, o) <==>
      HitAmong(x, indexes, k, o) || o in x.slots[x.slotByIndex[indexes[k]]].holders
  {
    forall o: Owner
      ensures HitAmong(x, indexes, k + 1, o) <==>
        HitAmong(x, indexes, k, o) || o in x.slots[x.slotByIndex[indexes[k]]].holders
    {
      assert HitAt(x, indexes, k, o) <==> o in x.slots[x.slotByIndex[indexes[k]]].holders;
    }
  }

  lemma HitsAreHits(fullMatch: Matcher, x: Index, key: string, indexes: seq<nat>)
    requires SetOk(x) && !x.stale && x.set_.Some?
    requires forall i :: 0 <= i < |indexes| ==> indexes[i] < |x.set_.value| && fullMatch(x.set_.value[indexes[i]], key)
    requires forall n :: 0 <= n < |x.set_.value| && fullMatch(x.set_.value[n], key) ==> n in indexes
    ensures IndexesOk(x, indexes)
    ensures forall o :: HitAmong(x, indexes, |indexes|, o) <==> Hit(fullMatch, x, key, o)
  {
    forall o, s | 0 <= s < |x.slots| && HitBy(fullMatch, x, key, o, s)
      ensures HitAmong(x, indexes, |indexes|, o)
    {
      var n :| 0 <= n < |x.slotByIndex| && x.slotByIndex[n] == s;
      var k :| 0 <= k < |indexes| && indexes[k] == n;
      assert HitAt(x, indexes, k, o);
    }
    forall o, k | 0 <= k < |indexes| && HitAt(x, indexes, k, o)
      ensures Hit(fullMatch, x, key, o)
    {
      assert HitBy(fullMatch, x, key, o, x.slotByIndex[indexes[k]]);
    }
  }

  lemma HoldersInRange(x: Index, bound: nat, s: nat)
    requires InRange(x, bound) && s < |x.slots|
    ensures forall i :: 0 <= i < |x.slots[s].holders| ==> x.slots[s].holders[i] < bound
  {
    forall i | 0 <= i < |x.slots[s].holders| ensures x.slots[s].holders[i] < bound {
      assert x.slots[s].holders[i] in x.slots[s].holders;
    }
  }

  lemma ListedInRange(x: Index, bound: nat, k: string)
    requires InRange(x, bound) && k in x.exact
    ensures forall i :: 0 <= i < |x.exact[k]| ==> x.exact[k][i] < bound
  {
    forall i | 0 <= i < |x.exact[k]| ensures x.exact[k][i] < bound {
      assert x.exact[k][i] in x.exact[k];
    }
  }

  lemma NoneStamped(owners: seq<OwnerState>, evaluation: nat)
    ensures Stamped(owners, multiset{}, evaluation) == owners
  {
  }

  lemma StampedLength(owners: seq<OwnerState>, found: multiset<Owner>, evaluation: nat)
    ensures |Stamped(owners, found, evaluation)| == |owners|
  {
  }

  /** Only owners are listed. */
  lemma IndexInRange(types: map<MessageType, Index>, held: seq<seq<Filter>>, t: MessageType)
    requires IndexOk(types, held) && t in types
    ensures InRange(types[t], |held|)
  {
    hide Times, Uses, TotalUses;
    var x := types[t];
    assert TypeOk(x, t, held);
    forall s, o | 0 <= s < |x.slots| && o in x.slots[s].holders ensures o < |held| {
      assert SlotOk(x, s);
      assert SlotOf(x, x.slots[s].text);
      assert ListedTimes(x, Text(x.slots[s].text), o) > 0;
    }
    forall k, o | k in x.exact && o in x.exact[k] ensures o < |held| {
      assert ListedTimes(x, Key(k), o) > 0;
    }
  }

  lemma BuiltOk(compiles: string -> bool, types: map<MessageType, Index>, held: seq<seq<Filter>>, t: MessageType,
                built: Index, bound: nat)
    requires IndexOk(types, held) && CompiledOk(compiles, types) && t in types && Shape(built) && InRange(types[t], bound)
    requires built == types[t].(stale := built.stale, set_ := built.set_, slotByIndex := built.slotByIndex)
    ensures IndexOk(types[t := built], held) && CompiledOk(compiles, types[t := built]) && InRange(built, bound)
  {
    hide Times, Uses, TotalUses, TypeOk;
    BuiltTypeOk(types[t], t, held, built);
  }

  lemma BuiltTypeOk(x: Index, t: MessageType, held: seq<seq<Filter>>, built: Index)
    requires TypeOk(x, t, held) && Shape(built)
    requires built == x.(stale := built.stale, set_ := built.set_, slotByIndex := built.slotByIndex)
    ensures TypeOk(built, t, held)
  {
    hide Times, Uses, TotalUses;
    SetMakesNoOdds(x, built);
    assert forall item, o :: ListedTimes(built, item, o) == ListedTimes(x, item, o);
  }

  lemma NoSlotNoHit(fullMatch: Matcher, x: Index, key: string)
    requires Shape(x) && x.slotByText == map[]
    ensures forall o :: !Hit(fullMatch, x, key, o)
  {
    forall s | 0 <= s < |x.slots| ensures x.slots[s].regex.None? {
      assert SlotOk(x, s);
    }
  }

  lemma FoundIs(fullMatch: Matcher, x: Index, key: string, listed: multiset<Owner>, hits: multiset<Owner>)
    requires listed == if key in x.exact then multiset(x.exact[key]) else multiset{}
    requires forall o: Owner :: o in hits <==> Hit(fullMatch, x, key, o)
    ensures forall o: Owner :: o in listed + hits <==> Found(fullMatch, x, key, o)
  {
    hide Hit;
  }

  lemma {:induction false} SomeUse(held: seq<seq<Filter>>, t: MessageType)
    ensures TotalUses(held, t) > 0 <==> exists o :: 0 <= o < |held| && Uses(held[o], t) > 0
  {
    hide Uses;
    if held != [] {
      SomeUse(held[1..], t);
      if o :| 0 <= o < |held| && Uses(held[o], t) > 0 {
        if o > 0 {
          assert held[1..][o - 1] == held[o];
        }
      }
      if o :| 0 <= o < |held[1..]| && Uses(held[1..][o], t) > 0 {
        assert held[o + 1] == held[1..][o];
      }
    }
  }

  lemma TypesUse(filters: seq<Filter>, t: MessageType)
    ensures t in TypesOf(filters) <==> Uses(filters, t) > 0
  {
    hide Uses;
    UsesSome(filters, t);
    if i :| 0 <= i < |filters| && filters[i].messageType == t {
      assert TypesOf(filters)[i] == t;
    }
  }

  /** A type is in the index exactly while some owner filters it. */
  lemma FilteredIs(compiles: string -> bool, types: map<MessageType, Index>, owners: seq<OwnerState>,
                   held: seq<seq<Filter>>, evaluations: nat, t: MessageType)
    requires IndexOk(types, held) && OwnersOk(compiles, owners, held, evaluations)
    ensures t in types <==> exists o :: 0 <= o < |owners| && t in owners[o].types
  {
    hide Uses, TotalUses, Acceptable, Shape;
    SomeUse(held, t);
    if t in types {
      assert TypeOk(types[t], t, held);
      var o :| 0 <= o < |held| && Uses(held[o], t) > 0;
      assert OwnerOk(compiles, owners[o], held[o], evaluations);
      TypesUse(held[o], t);
    }
    if o :| 0 <= o < |owners| && t in owners[o].types {
      assert OwnerOk(compiles, owners[o], held[o], evaluations);
      TypesUse(held[o], t);
    }
  }

  lemma NoFilterTakes(fullMatch: Matcher, compiles: string -> bool, types: map<MessageType, Index>,
                      owners: seq<OwnerState>, held: seq<seq<Filter>>, evaluations: nat, t: MessageType, key: string)
    requires IndexOk(types, held) && OwnersOk(compiles, owners, held, evaluations) && t !in types
    ensures forall o :: 0 <= o < |owners| ==> Declares(fullMatch, owners[o].filters, t, key)
  {
    hide Uses, TotalUses, Acceptable, Shape;
    forall o | 0 <= o < |owners| ensures Declares(fullMatch, owners[o].filters, t, key) {
      assert OwnerOk(compiles, owners[o], held[o], evaluations);
      TotalUsesOf(held, o, t);
      UsesSome(held[o], t);
    }
  }

  lemma StampedIsDeclared(fullMatch: Matcher, compiles: string -> bool, types: map<MessageType, Index>,
                          held: seq<seq<Filter>>, owners: seq<OwnerState>, evaluations: nat, t: MessageType,
                          key: string, found: multiset<Owner>, free: seq<Owner>)
    requires FreeOwnersOk(owners, free)
    requires MatcherOk(fullMatch) && IndexOk(types, held) && OwnersOk(compiles, owners, held, evaluations) && t in types
    requires forall o: Owner :: o in found <==> Found(fullMatch, types[t], key, o)
    ensures var now := Stamped(owners, found, evaluations + 1);
            OwnersOk(compiles, now, held, evaluations + 1) && SameFilters(owners, now) && FreeOwnersOk(now, free) &&
            forall o :: 0 <= o < |now| ==>
              (Takes(now, o, t, evaluations + 1) <==> Declares(fullMatch, now[o].filters, t, key))
  {
    hide MatcherOk, Found, Declares, Uses, TotalUses, Shape, DistinctTypes, FilterOk;
    var now := Stamped(owners, found, evaluations + 1);
    forall o | 0 <= o < |now|
      ensures Takes(now, o, t, evaluations + 1) <==> Declares(fullMatch, now[o].filters, t, key)
      ensures OwnerOk(compiles, now[o], held[o], evaluations + 1)
    {
      assert OwnerOk(compiles, owners[o], held[o], evaluations);
      assert TypeOk(types[t], t, held);
      FoundIsDeclared(fullMatch, types[t], t, held, key, o);
      TypesUse(held[o], t);
    }
  }

  /** The owners of a multiset stamped. */
  ghost function Stamped(owners: seq<OwnerState>, listed: multiset<Owner>, evaluation: nat): seq<OwnerState> {
    seq(|owners|, o requires 0 <= o < |owners| => if o in listed then owners[o].(taken := evaluation) else owners[o])
  }

  lemma LeavesFree(owners: seq<OwnerState>, free: seq<Owner>, owner: Owner)
    requires FreeOwnersOk(owners, free) && owner < |owners| && owners[owner].live
    ensures FreeOwnersOk(owners[owner := NO_STATE], free + [owner])
  {
    var now := free + [owner];
    assert now[|free|] == owner;
    assert forall i :: 0 <= i < |free| ==> now[i] == free[i];
  }

  lemma MoreKept(types: map<MessageType, Index>, kept: Compiled, filters: seq<Filter>, filter: Filter,
                 compiled: set<string>)
    requires filter.messageType !in kept && AllReady(types, kept, filters)
    requires AllReady(types, map[filter.messageType := compiled], [filter])
    ensures AllReady(types, kept[filter.messageType := compiled], filters + [filter])
  {
    hide Exact;
    var t := filter.messageType;
    var all, now := filters + [filter], kept[t := compiled];
    forall i, j | 0 <= i < |all| && 0 <= j < |all[i].patterns|
      ensures Ready(types, now, all[i].messageType, all[i].patterns[j])
    {
      if i < |filters| {
        assert Ready(types, kept, filters[i].messageType, filters[i].patterns[j]);
      } else {
        assert Ready(types, map[t := compiled], [filter][0].messageType, [filter][0].patterns[j]);
      }
    }
  }

  lemma MoreAcceptable(compiles: string -> bool, filters: seq<Filter>, filter: Filter)
    requires Acceptable(compiles, filters) && FilterOk(compiles, filter)
    requires forall i :: 0 <= i < |filters| ==> filters[i].messageType != filter.messageType
    ensures Acceptable(compiles, filters + [filter])
  {
    hide PatternOk;
  }

  lemma NothingDeclared(compiles: string -> bool)
    ensures Acceptable(compiles, [])
  {
  }

  lemma TypeShape(types: map<MessageType, Index>, held: seq<seq<Filter>>, t: MessageType)
    requires IndexOk(types, held) && t in types
    ensures Shape(types[t])
  {
  }

  lemma TakenReady(compiles: string -> bool, types: map<MessageType, Index>, kept: Compiled, t: MessageType,
                   pattern: string, y: Index)
    requires t in types && Ready(types, kept, t, pattern) && CompiledOk(compiles, types) && KeptOk(compiles, kept)
    requires y.slotByText.Keys == types[t].slotByText.Keys + if Exact(pattern).None? then {pattern} else {}
    ensures var moved := Exact(pattern).None? && pattern !in types[t].slotByText;
            (moved ==> t in kept) &&
            var now := if moved then kept[t := kept[t] - {pattern}] else kept;
            CompiledOk(compiles, types[t := y]) && KeptOk(compiles, now) && StillReady(types, kept, types[t := y], now)
  {
    hide Exact;
  }

  lemma OpenReady(compiles: string -> bool, types: map<MessageType, Index>, kept: Compiled, t: MessageType)
    requires CompiledOk(compiles, types)
    ensures var x := if t in types then types[t] else EMPTY;
            var now := types[t := x.(owners := x.owners + 1)];
            CompiledOk(compiles, now) && StillReady(types, kept, now, kept)
  {
    hide Exact;
  }

  lemma ReadyStill(types: map<MessageType, Index>, kept: Compiled, now: map<MessageType, Index>, nowKept: Compiled,
                   t: MessageType, pattern: string)
    requires StillReady(types, kept, now, nowKept) && Ready(types, kept, t, pattern)
    ensures Ready(now, nowKept, t, pattern)
  {
    hide Ready;
  }

  lemma StillReadyTwice(types: map<MessageType, Index>, kept: Compiled, types1: map<MessageType, Index>, kept1: Compiled,
                        types2: map<MessageType, Index>, kept2: Compiled)
    requires StillReady(types, kept, types1, kept1) && StillReady(types1, kept1, types2, kept2)
    ensures StillReady(types, kept, types2, kept2)
  {
    hide Ready;
  }

  lemma AllStillReady(types: map<MessageType, Index>, kept: Compiled, now: map<MessageType, Index>, nowKept: Compiled,
                      filters: seq<Filter>)
    requires AllReady(types, kept, filters) && StillReady(types, kept, now, nowKept)
    ensures AllReady(now, nowKept, filters)
  {
    hide Ready;
  }

  lemma OneReady(types: map<MessageType, Index>, kept: Compiled, filters: seq<Filter>, i: nat)
    requires AllReady(types, kept, filters) && i < |filters|
    ensures AllReady(types, kept, [filters[i]])
  {
    hide Ready;
  }

  lemma FewerCompiled(compiles: string -> bool, types: map<MessageType, Index>, t: MessageType, y: Option<Index>)
    requires CompiledOk(compiles, types) && t in types
    requires y.Some? ==> y.value.slotByText.Keys <= types[t].slotByText.Keys
    ensures CompiledOk(compiles, if y.Some? then types[t := y.value] else types - {t})
  {
  }
}
