/** The index of key filters by type against what the owners hold: what each step
    of taking and giving back keeps, and why a match finds the owners a scan of
    the declared filters finds. */
module KeyIndex {
  import opened Common
  import opened KeyItems
  import opened TypeIndex

  const MAX_PATTERN_SIZE: nat := 1024

  // The index against what the owners hold

  ghost function HeldTimes(held: seq<seq<Filter>>, owner: Owner, t: MessageType, item: Item): nat {
    if owner < |held| then Times(held[owner], t, item) else 0
  }

  /** Each item lists each owner once for each time its filters name it. */
  ghost predicate Lists(x: Index, t: MessageType, held: seq<seq<Filter>>)
    requires TextsOk(x)
  {
    forall item, owner :: ListedTimes(x, item, owner) == HeldTimes(held, owner, t, item)
  }

  ghost predicate TypeOk(x: Index, t: MessageType, held: seq<seq<Filter>>) {
    Shape(x) && x.owners == TotalUses(held, t) && x.owners > 0 && Lists(x, t, held)
  }

  /** A type is in the index while some owner filters it. */
  ghost predicate IndexOk(types: map<MessageType, Index>, held: seq<seq<Filter>>) {
    && (forall t :: t in types ==> TypeOk(types[t], t, held))
    && (forall t :: t !in types ==> TotalUses(held, t) == 0)
  }

  /** Filters that differ for one type alone. */
  ghost predicate SameBut(filters: seq<Filter>, other: seq<Filter>, t: MessageType) {
    && (forall u :: u != t ==> Uses(filters, u) == Uses(other, u))
    && (forall u, item :: u != t ==> Times(filters, u, item) == Times(other, u, item))
  }

  /** An index that lists what it should once one owner's filters change. */
  ghost predicate FitsChange(y: Index, t: MessageType, held: seq<seq<Filter>>, owner: Owner, filters: seq<Filter>)
    requires owner < |held|
  {
    && Shape(y) && y.owners > 0
    && y.owners + Uses(held[owner], t) == TotalUses(held, t) + Uses(filters, t)
    && (forall item, o :: ListedTimes(y, item, o) ==
          if o == owner then Times(filters, t, item) else HeldTimes(held, o, t, item))
  }

  lemma OtherTypeOk(x: Index, u: MessageType, held: seq<seq<Filter>>, owner: Owner, filters: seq<Filter>, t: MessageType)
    requires TypeOk(x, u, held) && owner < |held| && SameBut(held[owner], filters, t) && u != t
    ensures TypeOk(x, u, held[owner := filters])
  {
    hide Shape, Times, Uses, TotalUses;
    TotalUsesChanged(held, owner, filters, u);
  }

  lemma ThisTypeOk(y: Index, t: MessageType, held: seq<seq<Filter>>, owner: Owner, filters: seq<Filter>)
    requires owner < |held| && FitsChange(y, t, held, owner, filters)
    ensures TypeOk(y, t, held[owner := filters])
  {
    hide Shape, Times, Uses, TotalUses;
    TotalUsesChanged(held, owner, filters, t);
  }

  lemma ChangeOk(types: map<MessageType, Index>, held: seq<seq<Filter>>, owner: Owner, filters: seq<Filter>,
                 t: MessageType, y: Option<Index>)
    requires IndexOk(types, held) && owner < |held| && SameBut(held[owner], filters, t)
    requires y.Some? ==> FitsChange(y.value, t, held, owner, filters)
    requires y.None? ==> TotalUses(held, t) + Uses(filters, t) == Uses(held[owner], t)
    ensures IndexOk(if y.Some? then types[t := y.value] else types - {t}, held[owner := filters])
  {
    hide TypeOk, FitsChange, SameBut, Uses, TotalUses;
    var now := if y.Some? then types[t := y.value] else types - {t};
    if y.Some? {
      ThisTypeOk(y.value, t, held, owner, filters);
    }
    forall u | u in now ensures TypeOk(now[u], u, held[owner := filters]) {
      if u != t {
        OtherTypeOk(types[u], u, held, owner, filters, t);
      }
    }
    forall u | u !in now ensures TotalUses(held[owner := filters], u) == 0 {
      TotalUsesChanged(held, owner, filters, u);
      if u != t {
        SameUses(held[owner], filters, t, u);
      }
    }
  }

  lemma SameUses(filters: seq<Filter>, other: seq<Filter>, t: MessageType, u: MessageType)
    requires SameBut(filters, other, t) && u != t
    ensures Uses(filters, u) == Uses(other, u)
  {
  }

  // One filter more, at the end

  lemma LastFilter(front: seq<Filter>, t: MessageType, patterns: seq<string>, u: MessageType, item: Item)
    ensures Uses(front + [Filter(t, patterns)], u) == Uses(front, u) + if u == t then 1 else 0
    ensures Times(front + [Filter(t, patterns)], u, item)
         == Times(front, u, item) + if u == t then ItemTimes(patterns, item) else 0
  {
    hide ItemTimes;
    UsesConcat(front, [Filter(t, patterns)], u);
    TimesConcat(front, [Filter(t, patterns)], u, item);
    assert [Filter(t, patterns)][1..] == [];
  }

  lemma LastFilters(front: seq<Filter>, t: MessageType, patterns: seq<string>)
    ensures forall u :: Uses(front + [Filter(t, patterns)], u) == Uses(front, u) + if u == t then 1 else 0
    ensures forall u, item :: Times(front + [Filter(t, patterns)], u, item)
                           == Times(front, u, item) + if u == t then ItemTimes(patterns, item) else 0
  {
    hide Uses, Times, ItemTimes;
    forall u, item {
      LastFilter(front, t, patterns, u, item);
    }
    forall u {
      LastFilter(front, t, patterns, u, Key(""));
    }
  }

  /** A filter begun, with no pattern yet. */
  lemma OpenOk(types: map<MessageType, Index>, held: seq<seq<Filter>>, owner: Owner, t: MessageType)
    requires IndexOk(types, held) && owner < |held|
    ensures var x := if t in types then types[t] else EMPTY;
            IndexOk(types[t := x.(owners := x.owners + 1)], held[owner := held[owner] + [Filter(t, [])]])
  {
    hide Uses, Times, TotalUses;
    var x := if t in types then types[t] else EMPTY;
    var y, filters := x.(owners := x.owners + 1), held[owner] + [Filter(t, [])];
    LastFilters(held[owner], t, []);
    OwnersMakeNoOdds(x, y);
    if t !in types {
      NoneTimes(held, t);
    }
    ChangeOk(types, held, owner, filters, t, Some(y));
  }

  lemma NoneTimes(held: seq<seq<Filter>>, t: MessageType)
    requires TotalUses(held, t) == 0
    ensures forall item, o: Owner :: o < |held| ==> Times(held[o], t, item) == 0
  {
    hide Uses, Times, TotalUses;
    forall item, o: Owner | o < |held| ensures Times(held[o], t, item) == 0 {
      TotalUsesOf(held, o, t);
      NoUseNoTimes(held[o], t, item);
    }
  }

  /** One pattern more in the filter begun. */
  lemma TakeOk(types: map<MessageType, Index>, held: seq<seq<Filter>>, owner: Owner, front: seq<Filter>,
               t: MessageType, patterns: seq<string>, pattern: string, y: Index)
    requires IndexOk(types, held) && owner < |held| && held[owner] == front + [Filter(t, patterns)] && t in types
    requires Shape(types[t]) && Shape(y) && Changed(types[t], y, ItemOf(pattern), owner, 1) && y.owners == types[t].owners
    ensures IndexOk(types[t := y], held[owner := front + [Filter(t, patterns + [pattern])]])
  {
    hide Uses, Times, TotalUses, Shape, ListedTimes, ItemOf, ItemTimes;
    var filters := front + [Filter(t, patterns + [pattern])];
    LastFilters(front, t, patterns);
    LastFilters(front, t, patterns + [pattern]);
    forall item {
      ItemTimesNext(patterns, pattern, item);
    }
    assert TypeOk(types[t], t, held);
    ChangeOk(types, held, owner, filters, t, Some(y));
  }

  // One filter less, from the front

  lemma FirstFilters(t: MessageType, patterns: seq<string>, back: seq<Filter>)
    ensures forall u :: Uses([Filter(t, patterns)] + back, u) == Uses(back, u) + if u == t then 1 else 0
    ensures forall u, item :: Times([Filter(t, patterns)] + back, u, item)
                           == Times(back, u, item) + if u == t then ItemTimes(patterns, item) else 0
  {
    hide ItemTimes;
    assert ([Filter(t, patterns)] + back)[1..] == back;
  }

  lemma FirstPattern(pattern: string, patterns: seq<string>, item: Item)
    ensures ItemTimes([pattern] + patterns, item) == ItemTimes(patterns, item) + if ItemOf(pattern) == item then 1 else 0
  {
    hide ItemOf;
    assert ([pattern] + patterns)[1..] == patterns;
  }

  /** What an owner holds, it is listed for. */
  lemma HeldIsListed(types: map<MessageType, Index>, held: seq<seq<Filter>>, owner: Owner, t: MessageType,
                     pattern: string, patterns: seq<string>, back: seq<Filter>)
    requires IndexOk(types, held) && owner < |held| && held[owner] == [Filter(t, [pattern] + patterns)] + back
    ensures t in types && Shape(types[t]) && owner in Listed(types[t], ItemOf(pattern))
  {
    hide Uses, Times, TotalUses, Shape, ItemOf, ItemTimes, Listed;
    FirstFilters(t, [pattern] + patterns, back);
    FirstPattern(pattern, patterns, ItemOf(pattern));
    TotalUsesOf(held, owner, t);
    assert TypeOk(types[t], t, held);
    ShapeTexts(types[t]);
    assert ListedTimes(types[t], ItemOf(pattern), owner) > 0;
  }

  lemma GiveOk(types: map<MessageType, Index>, held: seq<seq<Filter>>, owner: Owner, t: MessageType, pattern: string,
               patterns: seq<string>, back: seq<Filter>, y: Index)
    requires IndexOk(types, held) && owner < |held| && held[owner] == [Filter(t, [pattern] + patterns)] + back
    requires t in types && Shape(types[t]) && Shape(y) && Changed(types[t], y, ItemOf(pattern), owner, -1)
    requires y.owners == types[t].owners
    ensures IndexOk(types[t := y], held[owner := [Filter(t, patterns)] + back])
  {
    hide Uses, Times, TotalUses, Shape, ListedTimes, ItemOf, ItemTimes;
    FirstFilters(t, [pattern] + patterns, back);
    FirstFilters(t, patterns, back);
    forall item {
      FirstPattern(pattern, patterns, item);
    }
    assert TypeOk(types[t], t, held);
    ChangeOk(types, held, owner, [Filter(t, patterns)] + back, t, Some(y));
  }

  /** A filter given back whole: one owner less, and the type gone with the last. */
  lemma CloseOk(types: map<MessageType, Index>, held: seq<seq<Filter>>, owner: Owner, t: MessageType, back: seq<Filter>)
    requires IndexOk(types, held) && owner < |held| && held[owner] == [Filter(t, [])] + back
    ensures t in types && types[t].owners > 0
    ensures var left := types[t].owners - 1;
            IndexOk(if left == 0 then types - {t} else types[t := types[t].(owners := left)], held[owner := back])
  {
    hide Uses, Times, TotalUses, ListedTimes;
    FirstFilters(t, [], back);
    TotalUsesOf(held, owner, t);
    assert TypeOk(types[t], t, held);
    var x, left := types[t], types[t].owners - 1;
    if left == 0 {
      ChangeOk(types, held, owner, back, t, None);
    } else {
      var y := x.(owners := left);
      OwnersMakeNoOdds(x, y);
      ChangeOk(types, held, owner, back, t, Some(y));
    }
  }

  lemma OwnersMakeNoOdds(x: Index, y: Index)
    requires Shape(x) && y == x.(owners := y.owners)
    ensures Shape(y) && forall item, owner :: ListedTimes(y, item, owner) == ListedTimes(x, item, owner)
  {
    assert forall p :: p in y.slotByText ==> SlotOf(x, p) == SlotOf(y, p);
    assert forall s :: 0 <= s < |y.slots| ==> SlotOk(x, s) == SlotOk(y, s);
    assert forall item :: Listed(y, item) == Listed(x, item);
  }

  // What a match says

  type Matcher = (string, string) -> bool

  /** RE2's part: a literal pattern matches its key and no other. */
  ghost predicate MatcherOk(fullMatch: Matcher) {
    forall pattern, key :: Exact(pattern).Some? ==> (fullMatch(pattern, key) <==> Exact(pattern).value == key)
  }

  /** The scan of one owner's declared filters: each for the type has a pattern
      that takes the key. */
  ghost predicate Declares(fullMatch: Matcher, filters: seq<Filter>, t: MessageType, key: string) {
    forall i :: 0 <= i < |filters| && filters[i].messageType == t ==>
      exists j :: 0 <= j < |filters[i].patterns| && fullMatch(filters[i].patterns[j], key)
  }

  ghost predicate DistinctTypes(filters: seq<Filter>) {
    forall i, j :: 0 <= i < j < |filters| ==> filters[i].messageType != filters[j].messageType
  }

  /** The owners a match finds: those that listed the key, and the holders of the
      patterns that take it. */
  ghost predicate Found(fullMatch: Matcher, x: Index, key: string, owner: Owner) {
    || (key in x.exact && owner in x.exact[key])
    || Hit(fullMatch, x, key, owner)
  }

  ghost predicate Hit(fullMatch: Matcher, x: Index, key: string, owner: Owner) {
    exists s :: 0 <= s < |x.slots| && HitBy(fullMatch, x, key, owner, s)
  }

  ghost predicate HitBy(fullMatch: Matcher, x: Index, key: string, owner: Owner, s: nat)
    requires s < |x.slots|
  {
    x.slots[s].regex.Some? && fullMatch(x.slots[s].regex.value, key) && owner in x.slots[s].holders
  }

  /** Whether an item takes a key. */
  ghost predicate ItemTakes(fullMatch: Matcher, item: Item, key: string) {
    match item
    case Key(k) => k == key
    case Text(p) => fullMatch(p, key)
  }

  lemma FoundByItem(fullMatch: Matcher, x: Index, key: string, owner: Owner)
    requires Shape(x)
    ensures Found(fullMatch, x, key, owner) <==>
            exists item :: ItemTakes(fullMatch, item, key) && ListedTimes(x, item, owner) > 0
  {
    if key in x.exact && owner in x.exact[key] {
      assert ListedTimes(x, Key(key), owner) > 0;
    }
    if s :| 0 <= s < |x.slots| && HitBy(fullMatch, x, key, owner, s) {
      assert SlotOk(x, s);
      assert SlotOf(x, x.slots[s].text);
      assert ItemTakes(fullMatch, Text(x.slots[s].text), key) && ListedTimes(x, Text(x.slots[s].text), owner) > 0;
    }
    if item :| ItemTakes(fullMatch, item, key) && ListedTimes(x, item, owner) > 0 {
      if item.Text? {
        assert SlotOf(x, item.pattern);
        assert HitBy(fullMatch, x, key, owner, x.slotByText[item.pattern]);
      }
    }
  }

  lemma ItemTakesAs(fullMatch: Matcher, pattern: string, key: string)
    requires MatcherOk(fullMatch)
    ensures ItemTakes(fullMatch, ItemOf(pattern), key) <==> fullMatch(pattern, key)
  {
  }

  lemma {:induction false} TimesSome(filters: seq<Filter>, t: MessageType, item: Item)
    ensures Times(filters, t, item) > 0 <==>
            exists i :: 0 <= i < |filters| && filters[i].messageType == t && ItemTimes(filters[i].patterns, item) > 0
  {
    hide ItemTimes;
    if filters != [] {
      TimesSome(filters[1..], t, item);
      if i :| 0 <= i < |filters| && filters[i].messageType == t && ItemTimes(filters[i].patterns, item) > 0 {
        if i > 0 {
          assert filters[1..][i - 1] == filters[i];
        }
      }
      if i :| 0 <= i < |filters[1..]| && filters[1..][i].messageType == t && ItemTimes(filters[1..][i].patterns, item) > 0 {
        assert filters[i + 1] == filters[1..][i];
      }
    }
  }

  lemma {:induction false} UsesSome(filters: seq<Filter>, t: MessageType)
    ensures Uses(filters, t) > 0 <==> exists i :: 0 <= i < |filters| && filters[i].messageType == t
  {
    if filters != [] {
      UsesSome(filters[1..], t);
      if i :| 0 <= i < |filters| && filters[i].messageType == t {
        if i > 0 {
          assert filters[1..][i - 1] == filters[i];
        }
      }
      if i :| 0 <= i < |filters[1..]| && filters[1..][i].messageType == t {
        assert filters[i + 1] == filters[1..][i];
      }
    }
  }

  /** A pattern of a filter that takes the key, as an item that does. */
  lemma SomePatternTakes(fullMatch: Matcher, patterns: seq<string>, key: string)
    requires MatcherOk(fullMatch)
    ensures (exists j :: 0 <= j < |patterns| && fullMatch(patterns[j], key)) <==>
            exists item :: ItemTakes(fullMatch, item, key) && ItemTimes(patterns, item) > 0
  {
    hide ItemTimes, MatcherOk, Exact, ItemTakes, ItemOf;
    if j :| 0 <= j < |patterns| && fullMatch(patterns[j], key) {
      ItemTakesAs(fullMatch, patterns[j], key);
      ItemTimesSome(patterns, ItemOf(patterns[j]));
    }
    if item :| ItemTakes(fullMatch, item, key) && ItemTimes(patterns, item) > 0 {
      ItemTimesSome(patterns, item);
      var j :| 0 <= j < |patterns| && ItemOf(patterns[j]) == item;
      ItemTakesAs(fullMatch, patterns[j], key);
    }
  }

  /** The match and the scan agree, on every owner that filters the type. */
  lemma FoundIsDeclared(fullMatch: Matcher, x: Index, t: MessageType, held: seq<seq<Filter>>, key: string, owner: Owner)
    requires MatcherOk(fullMatch) && TypeOk(x, t, held) && owner < |held| && DistinctTypes(held[owner])
    ensures Uses(held[owner], t) > 0 ==>
      (Found(fullMatch, x, key, owner) <==> Declares(fullMatch, held[owner], t, key))
    ensures Uses(held[owner], t) == 0 ==> !Found(fullMatch, x, key, owner) && Declares(fullMatch, held[owner], t, key)
  {
    hide ItemTimes, MatcherOk, Exact, ItemTakes, Shape, Found, Times, Uses, TotalUses, ListedTimes;
    var filters := held[owner];
    ShapeTexts(x);
    FoundByItem(fullMatch, x, key, owner);
    UsesSome(filters, t);
    if Found(fullMatch, x, key, owner) {
      var item :| ItemTakes(fullMatch, item, key) && ListedTimes(x, item, owner) > 0;
      TimesSome(filters, t, item);
      var i :| 0 <= i < |filters| && filters[i].messageType == t && ItemTimes(filters[i].patterns, item) > 0;
      SomePatternTakes(fullMatch, filters[i].patterns, key);
    }
    if i :| 0 <= i < |filters| && filters[i].messageType == t {
      if Declares(fullMatch, filters, t, key) {
        SomePatternTakes(fullMatch, filters[i].patterns, key);
        var item :| ItemTakes(fullMatch, item, key) && ItemTimes(filters[i].patterns, item) > 0;
        TimesSome(filters, t, item);
        assert ListedTimes(x, item, owner) == HeldTimes(held, owner, t, item);
      }
    }
  }

  // Before anything changes

  type Compiled = map<MessageType, set<string>>

  ghost predicate PatternOk(compiles: string -> bool, pattern: string) {
    |pattern| <= MAX_PATTERN_SIZE && (Exact(pattern).Some? || compiles(pattern))
  }

  ghost predicate FilterOk(compiles: string -> bool, filter: Filter) {
    filter.messageType > MAX_META_TYPE &&
    forall j :: 0 <= j < |filter.patterns| ==> PatternOk(compiles, filter.patterns[j])
  }

  /** The filters that are not refused. */
  ghost predicate Acceptable(compiles: string -> bool, filters: seq<Filter>) {
    DistinctTypes(filters) && forall i :: 0 <= i < |filters| ==> FilterOk(compiles, filters[i])
  }

  lemma AcceptableIs(compiles: string -> bool, filters: seq<Filter>)
    ensures Acceptable(compiles, filters) ==>
      && (forall i, j :: 0 <= i < j < |filters| ==> filters[i].messageType != filters[j].messageType)
      && (forall i :: 0 <= i < |filters| ==> filters[i].messageType > MAX_META_TYPE)
      && (forall i, j :: 0 <= i < |filters| && 0 <= j < |filters[i].patterns| ==>
            |filters[i].patterns[j]| <= MAX_PATTERN_SIZE && (Exact(filters[i].patterns[j]).Some? || compiles(filters[i].patterns[j])))
  {
    hide Exact;
    if Acceptable(compiles, filters) {
      forall i, j | 0 <= i < |filters| && 0 <= j < |filters[i].patterns|
        ensures PatternOk(compiles, filters[i].patterns[j])
      {
        assert FilterOk(compiles, filters[i]);
      }
    }
  }

  /** Every pattern in a slot compiled once, and every pattern kept compiles. */
  ghost predicate CompiledOk(compiles: string -> bool, types: map<MessageType, Index>) {
    forall t, p :: t in types && p in types[t].slotByText ==> compiles(p)
  }

  ghost predicate KeptOk(compiles: string -> bool, kept: Compiled) {
    forall t, p :: t in kept && p in kept[t] ==> compiles(p)
  }

  /** A pattern that is exact, in a slot of its type, or compiled and kept. */
  ghost predicate Ready(types: map<MessageType, Index>, kept: Compiled, t: MessageType, pattern: string) {
    Exact(pattern).None? ==> (t in types && pattern in types[t].slotByText) || (t in kept && pattern in kept[t])
  }

  ghost predicate AllReady(types: map<MessageType, Index>, kept: Compiled, filters: seq<Filter>) {
    forall i, j :: 0 <= i < |filters| && 0 <= j < |filters[i].patterns| ==>
      Ready(types, kept, filters[i].messageType, filters[i].patterns[j])
  }

  /** Nothing ready is lost: what leaves the patterns kept is in a slot. */
  ghost predicate StillReady(types: map<MessageType, Index>, kept: Compiled,
                             now: map<MessageType, Index>, nowKept: Compiled)
  {
    forall t, p :: Ready(types, kept, t, p) ==> Ready(now, nowKept, t, p)
  }

  /** One pattern checked: known, or compiled now, or refused. */
  method CheckPattern(compiles: string -> bool, known: set<string>, compiled: set<string>,
                      pattern: string) returns (ok: bool, now: set<string>)
    requires forall p :: p in known || p in compiled ==> compiles(p)
    ensures ok == PatternOk(compiles, pattern)
    ensures compiled <= now <= compiled + {pattern} && forall p :: p in now ==> compiles(p)
    ensures ok && Exact(pattern).None? ==> pattern in known || pattern in now
  {
    hide Exact;
    now := compiled;
    if |pattern| > MAX_PATTERN_SIZE {
      return false, now;
    }
    var key := DecodeExact(pattern);
    if key.Some? || pattern in known || pattern in compiled {
      return true, now;
    }
    if !compiles(pattern) {
      return false, now;
    }
    return true, now + {pattern};
  }
}
