/** One message type's filters: the exact keys with the owners that listed them,
    and the other patterns, each in a slot of its own, shared by its holders and
    recycled once the last one leaves. */
module TypeIndex {
  import opened Common
  import opened KeyItems

  /** A free slot has no regex. */
  datatype Slot = Slot(text: string, regex: Option<string>, holders: seq<Owner>)

  /** The set is the texts added to it in order. */
  datatype Index = Index(exact: map<string, seq<Owner>>, slots: seq<Slot>, freeSlots: seq<nat>,
                         slotByText: map<string, nat>, set_: Option<seq<string>>, slotByIndex: seq<nat>,
                         stale: bool, owners: nat)

  const EMPTY := Index(map[], [], [], map[], None, [], true, 0)

  ghost predicate ExactOk(x: Index) {
    forall k :: k in x.exact ==> x.exact[k] != []
  }

  /** A pattern's slot has its text, its regex and a holder. */
  ghost predicate SlotOf(x: Index, p: string)
    requires p in x.slotByText
  {
    var s := x.slotByText[p];
    s < |x.slots| && x.slots[s].text == p && x.slots[s].regex == Some(p) && x.slots[s].holders != []
  }

  ghost predicate TextsOk(x: Index) {
    forall p :: p in x.slotByText ==> Exact(p).None? && SlotOf(x, p)
  }

  /** A slot is used, by the pattern that finds it, or free and empty. */
  ghost predicate SlotOk(x: Index, s: nat)
    requires s < |x.slots|
  {
    var slot := x.slots[s];
    if slot.regex.Some? then slot.text in x.slotByText && x.slotByText[slot.text] == s
    else slot == Slot("", None, []) && s in x.freeSlots
  }

  ghost predicate SlotsOk(x: Index) {
    forall s :: 0 <= s < |x.slots| ==> SlotOk(x, s)
  }

  ghost predicate FreeOk(x: Index) {
    && (forall i :: 0 <= i < |x.freeSlots| ==> x.freeSlots[i] < |x.slots| && x.slots[x.freeSlots[i]].regex.None?)
    && (forall i, j :: 0 <= i < j < |x.freeSlots| ==> x.freeSlots[i] != x.freeSlots[j])
  }

  /** The set, unless stale, is of the used slots' texts, each with its slot. */
  ghost predicate SetOk(x: Index) {
    !x.stale && x.set_.Some? ==>
      && |x.slotByIndex| == |x.set_.value|
      && (forall i :: 0 <= i < |x.slotByIndex| ==>
            x.slotByIndex[i] < |x.slots| && x.slots[x.slotByIndex[i]].regex == Some(x.set_.value[i]))
      && (forall s :: 0 <= s < |x.slots| && x.slots[s].regex.Some? ==> s in x.slotByIndex)
  }

  ghost predicate Shape(x: Index) {
    ExactOk(x) && TextsOk(x) && SlotsOk(x) && FreeOk(x) && SetOk(x)
  }

  /** The owners that declared an item, once for each time. */
  ghost function Listed(x: Index, item: Item): seq<Owner>
    requires TextsOk(x)
  {
    match item
    case Key(k) => if k in x.exact then x.exact[k] else []
    case Text(p) => if p in x.slotByText then x.slots[x.slotByText[p]].holders else []
  }

  // Taking one pattern

  lemma TakeKeyOk(x: Index, k: string, owner: Owner)
    requires Shape(x)
    ensures var y := x.(exact := x.exact[k := Listed(x, Key(k)) + [owner]]);
            Shape(y) && Listed(y, Key(k)) == Listed(x, Key(k)) + [owner] &&
            forall item :: item != Key(k) ==> Listed(y, item) == Listed(x, item)
  {
    var y := x.(exact := x.exact[k := Listed(x, Key(k)) + [owner]]);
    assert forall p :: p in y.slotByText ==> SlotOf(x, p) == SlotOf(y, p);
    assert forall s :: 0 <= s < |y.slots| ==> SlotOk(x, s) == SlotOk(y, s);
  }

  lemma HoldOk(x: Index, p: string, holders: seq<Owner>)
    requires Shape(x) && p in x.slotByText && holders != []
    ensures var s := x.slotByText[p];
            var y := x.(slots := x.slots[s := x.slots[s].(holders := holders)]);
            Shape(y) && Listed(y, Text(p)) == holders &&
            forall item :: item != Text(p) ==> Listed(y, item) == Listed(x, item)
  {
    var s := x.slotByText[p];
    assert SlotOf(x, p);
    var y := x.(slots := x.slots[s := x.slots[s].(holders := holders)]);
    forall q | q in y.slotByText ensures SlotOf(y, q) && (q != p ==> y.slotByText[q] != s) {
      assert SlotOf(x, q);
    }
    forall r | 0 <= r < |y.slots| ensures SlotOk(y, r) {
      assert SlotOk(x, r);
    }
  }

  /** A pattern new to the type put into a slot no other has. */
  ghost predicate Put(x: Index, y: Index, p: string, s: nat, owner: Owner) {
    && y.exact == x.exact && y.slotByText == x.slotByText[p := s] && p !in x.slotByText && y.stale
    && s < |y.slots| && |x.slots| <= |y.slots| && y.slots[s] == Slot(p, Some(p), [owner])
    && (forall r :: 0 <= r < |x.slots| && r != s ==> y.slots[r] == x.slots[r])
    && (forall q :: q in x.slotByText ==> x.slotByText[q] != s)
  }

  lemma PutListed(x: Index, y: Index, p: string, s: nat, owner: Owner)
    requires TextsOk(x) && Put(x, y, p, s, owner) && Exact(p).None?
    ensures TextsOk(y) && Listed(y, Text(p)) == [owner]
    ensures forall item :: item != Text(p) ==> Listed(y, item) == Listed(x, item)
  {
    hide Exact;
    forall q | q in y.slotByText ensures Exact(q).None? && SlotOf(y, q) {
      if q != p {
        assert SlotOf(x, q);
      }
    }
  }

  /** A pattern new to the type, in a new slot. */
  lemma NewSlotOk(x: Index, p: string, owner: Owner)
    requires Shape(x) && p !in x.slotByText && Exact(p).None?
    ensures var y := x.(slots := x.slots + [Slot(p, Some(p), [owner])], slotByText := x.slotByText[p := |x.slots|],
                        stale := true);
            Shape(y) && Listed(y, Text(p)) == [owner] &&
            forall item :: item != Text(p) ==> Listed(y, item) == Listed(x, item)
  {
    hide Exact, TextsOk, Listed;
    var y := x.(slots := x.slots + [Slot(p, Some(p), [owner])], slotByText := x.slotByText[p := |x.slots|],
                stale := true);
    InSlots(x);
    PutListed(x, y, p, |x.slots|, owner);
    forall r | 0 <= r < |y.slots| ensures SlotOk(y, r) {
      if r < |x.slots| {
        assert SlotOk(x, r);
      }
    }
  }

  lemma InSlots(x: Index)
    requires TextsOk(x)
    ensures forall q :: q in x.slotByText ==> x.slotByText[q] < |x.slots| && x.slots[x.slotByText[q]].regex.Some?
  {
    hide Exact;
    forall q | q in x.slotByText ensures x.slotByText[q] < |x.slots| && x.slots[x.slotByText[q]].regex.Some? {
      assert SlotOf(x, q);
    }
  }

  lemma ButLast(free: seq<nat>, r: nat)
    requires free != [] && r != free[|free| - 1]
    ensures r in free <==> r in free[..|free| - 1]
  {
    assert free == free[..|free| - 1] + [free[|free| - 1]];
  }

  /** A pattern new to the type, in a slot given back before. */
  lemma RecycledSlotOk(x: Index, p: string, owner: Owner)
    requires Shape(x) && p !in x.slotByText && Exact(p).None? && x.freeSlots != []
    ensures var s := x.freeSlots[|x.freeSlots| - 1];
            s < |x.slots| &&
            var y := x.(slots := x.slots[s := Slot(p, Some(p), [owner])], freeSlots := x.freeSlots[..|x.freeSlots| - 1],
                        slotByText := x.slotByText[p := s], stale := true);
            Shape(y) && Listed(y, Text(p)) == [owner] &&
            forall item :: item != Text(p) ==> Listed(y, item) == Listed(x, item)
  {
    hide Exact, TextsOk, Listed;
    var n := |x.freeSlots|;
    var s := x.freeSlots[n - 1];
    var y := x.(slots := x.slots[s := Slot(p, Some(p), [owner])], freeSlots := x.freeSlots[..n - 1],
                slotByText := x.slotByText[p := s], stale := true);
    InSlots(x);
    PutListed(x, y, p, s, owner);
    forall r | 0 <= r < |y.slots| ensures SlotOk(y, r) {
      if r != s {
        assert SlotOk(x, r);
        ButLast(x.freeSlots, r);
      }
    }
  }

  // Giving one pattern back

  lemma KeyLeavesOk(x: Index, k: string, owners: seq<Owner>)
    requires Shape(x) && k in x.exact
    ensures var y := x.(exact := if owners == [] then x.exact - {k} else x.exact[k := owners]);
            Shape(y) && Listed(y, Key(k)) == owners &&
            forall item :: item != Key(k) ==> Listed(y, item) == Listed(x, item)
  {
    var y := x.(exact := if owners == [] then x.exact - {k} else x.exact[k := owners]);
    assert forall p :: p in y.slotByText ==> SlotOf(x, p) == SlotOf(y, p);
    assert forall s :: 0 <= s < |y.slots| ==> SlotOk(x, s) == SlotOk(y, s);
  }

  /** The last holder leaves: the slot is free, and the set to be built again. */
  lemma SlotLeavesOk(x: Index, p: string)
    requires Shape(x) && p in x.slotByText
    ensures var s := x.slotByText[p];
            var y := x.(slots := x.slots[s := Slot("", None, [])], freeSlots := x.freeSlots + [s],
                        slotByText := x.slotByText - {p}, stale := true);
            Shape(y) && Listed(y, Text(p)) == [] &&
            forall item :: item != Text(p) ==> Listed(y, item) == Listed(x, item)
  {
    var s := x.slotByText[p];
    assert SlotOf(x, p);
    var y := x.(slots := x.slots[s := Slot("", None, [])], freeSlots := x.freeSlots + [s],
                slotByText := x.slotByText - {p}, stale := true);
    forall q | q in y.slotByText ensures SlotOf(y, q) && y.slotByText[q] != s {
      assert SlotOf(x, q);
    }
    assert s in y.freeSlots by {
      assert y.freeSlots[|x.freeSlots|] == s;
    }
    forall r | 0 <= r < |y.slots| ensures SlotOk(y, r) {
      assert SlotOk(x, r);
      assert forall i :: 0 <= i < |x.freeSlots| ==> y.freeSlots[i] == x.freeSlots[i];
    }
  }

  // The operations

  /** How many times an owner is listed for an item. */
  ghost function ListedTimes(x: Index, item: Item, owner: Owner): nat
    requires TextsOk(x)
  {
    multiset(Listed(x, item))[owner]
  }

  /** One pattern more of one owner, or one less. */
  ghost predicate Changed(x: Index, y: Index, item: Item, owner: Owner, change: int)
    requires TextsOk(x) && TextsOk(y)
  {
    forall i, o :: ListedTimes(y, i, o) == ListedTimes(x, i, o) + if i == item && o == owner then change else 0
  }

  lemma OneListed(x: Index, y: Index, item: Item, owner: Owner)
    requires TextsOk(x) && TextsOk(y)
    requires Listed(y, item) == Listed(x, item) + [owner]
    requires forall i :: i != item ==> Listed(y, i) == Listed(x, i)
    ensures Changed(x, y, item, owner, 1)
  {
    hide TextsOk, Listed;
    assert multiset(Listed(y, item)) == multiset(Listed(x, item)) + multiset{owner};
  }

  lemma OneGone(x: Index, y: Index, item: Item, owner: Owner)
    requires TextsOk(x) && TextsOk(y) && owner in Listed(x, item)
    requires multiset(Listed(y, item)) == multiset(Listed(x, item)) - multiset{owner}
    requires forall i :: i != item ==> Listed(y, i) == Listed(x, i)
    ensures Changed(x, y, item, owner, -1)
  {
    hide TextsOk, Listed;
  }

  /** One pattern taken; one new to the type comes with its regex, compiled. */
  method TakePattern(x: Index, owner: Owner, pattern: string, compiled: Option<string>) returns (y: Index)
    requires Shape(x)
    requires Exact(pattern).None? && pattern !in x.slotByText ==> compiled == Some(pattern)
    ensures Shape(y) && Changed(x, y, ItemOf(pattern), owner, 1)
    ensures y.owners == x.owners
    ensures y.slotByText.Keys == x.slotByText.Keys + if Exact(pattern).None? then {pattern} else {}
  {
    hide Shape, Changed, Exact;
    ShapeTexts(x);
    var key := DecodeExact(pattern);
    if key.Some? {
      TakeKeyOk(x, key.value, owner);
      y := x.(exact := x.exact[key.value := (if key.value in x.exact then x.exact[key.value] else []) + [owner]]);
    } else if pattern in x.slotByText {
      var slot := x.slotByText[pattern];
      assert SlotOf(x, pattern);
      HoldOk(x, pattern, x.slots[slot].holders + [owner]);
      y := x.(slots := x.slots[slot := x.slots[slot].(holders := x.slots[slot].holders + [owner])]);
    } else {
      var last := |x.freeSlots| - 1;
      if x.freeSlots == [] {
        NewSlotOk(x, pattern, owner);
        y := x.(slots := x.slots + [Slot(pattern, compiled, [owner])], slotByText := x.slotByText[pattern := |x.slots|],
                stale := true);
      } else {
        RecycledSlotOk(x, pattern, owner);
        var slot := x.freeSlots[last];
        y := x.(slots := x.slots[slot := Slot(pattern, compiled, [owner])], freeSlots := x.freeSlots[..last],
                slotByText := x.slotByText[pattern := slot], stale := true);
      }
    }
    ShapeTexts(y);
    OneListed(x, y, ItemOf(pattern), owner);
  }

  lemma ShapeTexts(x: Index)
    ensures Shape(x) ==> TextsOk(x)
  {
  }

  /** Removes one occurrence, the last element taking its place. */
  method RemoveOne(owners: seq<Owner>, owner: Owner) returns (rest: seq<Owner>, found: bool)
    ensures found == (owner in owners)
    ensures found ==> multiset(rest) == multiset(owners) - multiset{owner}
    ensures !found ==> rest == owners
  {
    for index := 0 to |owners|
      invariant owner !in owners[..index]
    {
      if owners[index] == owner {
        var last := owners[|owners| - 1];
        rest := owners[index := last][..|owners| - 1];
        Swapped(owners, index);
        return rest, true;
      }
    }
    return owners, false;
  }

  lemma Swapped(owners: seq<Owner>, index: nat)
    requires index < |owners|
    ensures var last := |owners| - 1;
            multiset(owners[index := owners[last]][..last]) == multiset(owners) - multiset{owners[index]}
  {
    var last := |owners| - 1;
    var moved := owners[index := owners[last]];
    assert owners == owners[..last] + [owners[last]];
    if index < last {
      assert moved[..last] == owners[..last][index := owners[last]];
    } else {
      assert moved[..last] == owners[..last];
    }
  }

  /** One pattern given back, where the owner is listed for it. */
  method GiveBackPattern(x: Index, owner: Owner, pattern: string) returns (y: Index)
    requires Shape(x)
    ensures Shape(y) && y.owners == x.owners && y.slotByText.Keys <= x.slotByText.Keys
    ensures owner in Listed(x, ItemOf(pattern)) ==> Changed(x, y, ItemOf(pattern), owner, -1)
    ensures owner !in Listed(x, ItemOf(pattern)) ==> y == x
  {
    hide Shape, Changed, Exact;
    ShapeTexts(x);
    y := x;
    var key := DecodeExact(pattern);
    if key.Some? {
      if key.value in x.exact {
        var rest, found := RemoveOne(x.exact[key.value], owner);
        KeyLeavesOk(x, key.value, rest);
        y := x.(exact := if found && rest == [] then x.exact - {key.value} else x.exact[key.value := rest]);
      }
    } else if pattern in x.slotByText {
      assert SlotOf(x, pattern);
      var slot := x.slotByText[pattern];
      var rest, found := RemoveOne(x.slots[slot].holders, owner);
      if found && rest == [] {
        SlotLeavesOk(x, pattern);
        y := x.(slots := x.slots[slot := Slot("", None, [])], freeSlots := x.freeSlots + [slot],
                slotByText := x.slotByText - {pattern}, stale := true);
      } else {
        HoldOk(x, pattern, rest);
        y := x.(slots := x.slots[slot := x.slots[slot].(holders := rest)]);
      }
    }
    ShapeTexts(y);
    if owner in Listed(x, ItemOf(pattern)) {
      OneGone(x, y, ItemOf(pattern), owner);
    }
  }

  /** A set of the texts in use, with their slots, or none where memory is short at two
      attempts. */
  method Build(x: Index) returns (y: Index)
    requires Shape(x)
    ensures Shape(y) && !y.stale && y == x.(stale := false, set_ := y.set_, slotByIndex := y.slotByIndex)
    ensures x.slotByText == map[] ==> y.set_ == None
  {
    var built: Option<seq<string>> := None;
    var slotByIndex: seq<nat> := [];
    var attempt: nat := 0;
    while attempt < 2 && built.None? && x.slotByText != map[]
      invariant built.Some? ==> SetOk(x.(stale := false, set_ := built, slotByIndex := slotByIndex))
      invariant x.slotByText == map[] ==> built == None
    {
      var texts: seq<string> := [];
      slotByIndex := [];
      var fits := true;
      var slot: nat := 0;
      while slot < |x.slots| && fits
        invariant slot <= |x.slots| && |texts| == |slotByIndex|
        invariant forall i :: 0 <= i < |slotByIndex| ==>
          slotByIndex[i] < |x.slots| && x.slots[slotByIndex[i]].regex == Some(texts[i])
        invariant fits ==> forall r :: 0 <= r < slot && x.slots[r].regex.Some? ==> r in slotByIndex
      {
        if x.slots[slot].regex.Some? {
          fits := *;
          if fits {
            assert SlotOk(x, slot);
            assert SlotOf(x, x.slots[slot].text);
            texts := texts + [x.slots[slot].text];
            slotByIndex := slotByIndex + [slot];
          }
        }
        slot := slot + 1;
      }
      var compiles: bool;
      compiles := *;
      if fits && compiles {
        built := Some(texts);
      }
      attempt := attempt + 1;
    }
    if built.None? {
      slotByIndex := [];
    }
    y := x.(stale := false, set_ := built, slotByIndex := slotByIndex);
    SetMakesNoOdds(x, y);
  }

  lemma SetMakesNoOdds(x: Index, y: Index)
    requires Shape(x) && y == x.(stale := y.stale, set_ := y.set_, slotByIndex := y.slotByIndex) && SetOk(y)
    ensures Shape(y) && forall item :: Listed(y, item) == Listed(x, item)
  {
    assert forall p :: p in y.slotByText ==> SlotOf(x, p) == SlotOf(y, p);
    assert forall s :: 0 <= s < |y.slots| ==> SlotOk(x, s) == SlotOk(y, s);
  }
}
