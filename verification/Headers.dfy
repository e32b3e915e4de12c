/** src/headers/index.ts: a header collection that keeps an index beside an ordered list. */
module HeaderTable {
  import opened Basics

  type Tuple = (string, string)

  predicate IsSpace(c: char) {
    var n := c as int;
    || 9 <= n <= 13 || n == 0x20 || n == 0xA0 || n == 0x1680 || 0x2000 <= n <= 0x200A
    || n == 0x2028 || n == 0x2029 || n == 0x202F || n == 0x205F || n == 0x3000 || n == 0xFEFF
  }

  function TrimStart(s: string): string {
    if s == [] then [] else if IsSpace(s[0]) then TrimStart(s[1..]) else s
  }

  function TrimEnd(s: string): string {
    if s == [] then [] else if IsSpace(s[|s| - 1]) then TrimEnd(s[..|s| - 1]) else s
  }

  function Trim(s: string): string { TrimEnd(TrimStart(s)) }

  lemma {:induction false} TrimStartStops(s: string)
    ensures TrimStart(s) == [] || !IsSpace(TrimStart(s)[0])
  {
    if s == [] {
    } else if IsSpace(s[0]) {
      TrimStartStops(s[1..]);
    }
  }

  lemma {:induction false} TrimEndStops(s: string)
    ensures TrimEnd(s) == [] || !IsSpace(TrimEnd(s)[|TrimEnd(s)| - 1])
    ensures s != [] && !IsSpace(s[0]) ==> TrimEnd(s) != [] && TrimEnd(s)[0] == s[0]
    decreases |s|
  {
    if s == [] {
    } else if IsSpace(s[|s| - 1]) {
      TrimEndStops(s[..|s| - 1]);
    }
  }

  lemma TrimIsIdempotent(s: string)
    ensures Trim(Trim(s)) == Trim(s)
  {
    TrimStartStops(s);
    TrimEndStops(TrimStart(s));
  }

  lemma {:induction false} TrimStartCuts(s: string) returns (i: nat)
    ensures i <= |s| && TrimStart(s) == s[i..] && forall k :: 0 <= k < i ==> IsSpace(s[k])
  {
    if s == [] {
      i := 0;
    } else if IsSpace(s[0]) {
      i := TrimStartCuts(s[1..]);
      assert forall k :: 0 < k < 1 + i ==> s[k] == s[1..][k - 1];
      i := 1 + i;
    } else {
      i := 0;
    }
  }

  lemma {:induction false} TrimEndCuts(s: string) returns (j: nat)
    ensures j <= |s| && TrimEnd(s) == s[..j] && forall k :: j <= k < |s| ==> IsSpace(s[k])
    decreases |s|
  {
    if s == [] {
      j := 0;
    } else if IsSpace(s[|s| - 1]) {
      j := TrimEndCuts(s[..|s| - 1]);
      assert s[..|s| - 1][..j] == s[..j];
    } else {
      j := |s|;
      assert s[..j] == s;
    }
  }

  /** Trimming cuts spaces off both ends, all of them, and nothing else. */
  lemma TrimCuts(s: string) returns (i: nat, j: nat)
    ensures i <= j <= |s| && Trim(s) == s[i..j]
    ensures forall k :: 0 <= k < i || j <= k < |s| ==> IsSpace(s[k])
    ensures i < j ==> !IsSpace(s[i]) && !IsSpace(s[j - 1])
  {
    i := TrimStartCuts(s);
    var n := TrimEndCuts(s[i..]);
    j := i + n;
    TrimStartStops(s);
    TrimEndStops(TrimStart(s));
    assert s[i..][..n] == s[i..j];
    assert forall k :: j <= k < |s| ==> s[k] == s[i..][k - i];
  }

  function LowerChar(c: char): char {
    if 'A' <= c <= 'Z' then (c as int + 32) as char else c
  }

  /** Only the 26 capitals of ASCII are changed, each to the letter at the same place in the small alphabet. */
  lemma LowerCharTable(c: char)
    ensures 'A' <= c <= 'Z' ==>
              'a' <= LowerChar(c) <= 'z' && LowerChar(c) as int - 'a' as int == c as int - 'A' as int
    ensures !('A' <= c <= 'Z') ==> LowerChar(c) == c
  {}

  function Lower(s: string): string {
    if s == [] then [] else [LowerChar(s[0])] + Lower(s[1..])
  }

  /** The index key of a header name. */
  function Key(name: string): string { Lower(Trim(name)) }

  // ----- the tuple list -----

  function Values(list: seq<Tuple>, key: string): seq<string> {
    if list == [] then []
    else if Key(list[|list| - 1].0) == key then Values(list[..|list| - 1], key) + [list[|list| - 1].1]
    else Values(list[..|list| - 1], key)
  }

  function FirstName(list: seq<Tuple>, key: string): Option<string> {
    if list == [] then None
    else if FirstName(list[..|list| - 1], key).Some? then FirstName(list[..|list| - 1], key)
    else if Key(list[|list| - 1].0) == key then Some(list[|list| - 1].0)
    else None
  }

  function Without(list: seq<Tuple>, key: string): seq<Tuple> {
    if list == [] then []
    else if Key(list[|list| - 1].0) == key then Without(list[..|list| - 1], key)
    else Without(list[..|list| - 1], key) + [list[|list| - 1]]
  }

  function Appended(list: seq<Tuple>, name: string, value: string): seq<Tuple> { list + [(Trim(name), value)] }

  function Replaced(list: seq<Tuple>, name: string, value: string): seq<Tuple> {
    Appended(Without(list, Key(name)), name, value)
  }

  predicate Has(list: seq<Tuple>, key: string) { Values(list, key) != [] }

  lemma LookupAppended(list: seq<Tuple>, name: string, value: string, key: string)
    ensures Values(Appended(list, name, value), key) ==
            if Key(name) == key then Values(list, key) + [value] else Values(list, key)
    ensures FirstName(Appended(list, name, value), key) ==
            if FirstName(list, key).Some? then FirstName(list, key)
            else if Key(name) == key then Some(Trim(name)) else None
  {
    TrimIsIdempotent(name);
    assert Appended(list, name, value)[..|list|] == list;
  }

  lemma {:induction false} ValuesWithout(list: seq<Tuple>, gone: string, key: string)
    ensures Values(Without(list, gone), key) == if key == gone then [] else Values(list, key)
    decreases |list|
  {
    if list == [] {
    } else {
      var init, last := list[..|list| - 1], list[|list| - 1];
      ValuesWithout(init, gone, key);
      if Key(last.0) != gone {
        assert (Without(init, gone) + [last])[..|Without(init, gone)|] == Without(init, gone);
      }
    }
  }

  lemma {:induction false} FirstNameWithout(list: seq<Tuple>, gone: string, key: string)
    ensures FirstName(Without(list, gone), key) == if key == gone then None else FirstName(list, key)
    decreases |list|
  {
    if list == [] {
    } else {
      var init, last := list[..|list| - 1], list[|list| - 1];
      FirstNameWithout(init, gone, key);
      if Key(last.0) != gone {
        assert (Without(init, gone) + [last])[..|Without(init, gone)|] == Without(init, gone);
      }
    }
  }

  lemma LookupWithout(list: seq<Tuple>, gone: string, key: string)
    ensures Values(Without(list, gone), key) == if key == gone then [] else Values(list, key)
    ensures FirstName(Without(list, gone), key) == if key == gone then None else FirstName(list, key)
  {
    ValuesWithout(list, gone, key);
    FirstNameWithout(list, gone, key);
  }

  lemma LookupReplaced(list: seq<Tuple>, name: string, value: string, key: string)
    ensures Values(Replaced(list, name, value), key) == if Key(name) == key then [value] else Values(list, key)
    ensures FirstName(Replaced(list, name, value), key) ==
            if Key(name) == key then Some(Trim(name)) else FirstName(list, key)
  {
    LookupWithout(list, Key(name), key);
    LookupAppended(Without(list, Key(name)), name, value, key);
  }

  function Join(values: seq<string>): string
    requires values != []
  {
    if |values| == 1 then values[0] else values[0] + ", " + Join(values[1..])
  }

  /** What `get` returns for a key. */
  function Combined(list: seq<Tuple>, key: string): Option<string> {
    if Has(list, key) then Some(Join(Values(list, key))) else None
  }

  lemma {:induction false} JoinAppend(values: seq<string>, last: string)
    ensures Join([last]) == last
    ensures values != [] ==> Join(values + [last]) == Join(values) + ", " + last
  {
    if |values| <= 1 {
      if values != [] { assert (values + [last])[1..] == [last]; }
    } else {
      JoinAppend(values[1..], last);
      assert (values + [last])[1..] == values[1..] + [last];
    }
  }

  /** Appending a value adds it, after a comma, to what `get` returns; a first value is returned as it is. */
  lemma AppendCombines(list: seq<Tuple>, name: string, value: string)
    ensures var before := Combined(list, Key(name));
            Combined(Appended(list, name, value), Key(name)) ==
            Some(if before.Some? then before.value + ", " + value else value)
  {
    LookupAppended(list, name, value, Key(name));
    JoinAppend(Values(list, Key(name)), value);
    assert [] + [value] == [value];
  }

  // ----- the index -----

  datatype Entry = Entry(name: string, values: seq<string>)

  /** The index a tuple list stands for: one entry a key, values in order, first display name. */
  function Grouping(list: seq<Tuple>): map<string, Entry> {
    if list == [] then map[] else AddTuple(Grouping(list[..|list| - 1]), list[|list| - 1])
  }

  function AddTuple(index: map<string, Entry>, t: Tuple): map<string, Entry> {
    var key := Key(t.0);
    if key in index then index[key := index[key].(values := index[key].values + [t.1])]
    else index[key := Entry(t.0, [t.1])]
  }

  lemma GroupingAppended(list: seq<Tuple>, name: string, value: string)
    ensures Grouping(Appended(list, name, value)) == AddTuple(Grouping(list), (Trim(name), value))
    ensures Key(Trim(name)) == Key(name)
  {
    assert Appended(list, name, value)[..|list|] == list;
    TrimIsIdempotent(name);
  }

  lemma AddThenDrop(index: map<string, Entry>, t: Tuple, key: string)
    ensures AddTuple(index, t) - {key} ==
            if Key(t.0) == key then index - {key} else AddTuple(index - {key}, t)
  {}

  lemma {:induction false} GroupingWithout(list: seq<Tuple>, key: string)
    ensures Grouping(Without(list, key)) == Grouping(list) - {key}
    decreases |list|
  {
    if list == [] {
    } else {
      var init, last := list[..|list| - 1], list[|list| - 1];
      GroupingWithout(init, key);
      AddThenDrop(Grouping(init), last, key);
      assert (Without(init, key) + [last])[..|Without(init, key)|] == Without(init, key);
    }
  }

  lemma GroupingReplaced(list: seq<Tuple>, name: string, value: string)
    ensures Grouping(Replaced(list, name, value)) == Grouping(list)[Key(name) := Entry(Trim(name), [value])]
  {
    GroupingWithout(list, Key(name));
    GroupingAppended(Without(list, Key(name)), name, value);
  }

  /** The index answers exactly what the tuple list says. */
  lemma {:induction false} GroupingIsFaithful(list: seq<Tuple>, key: string)
    ensures key in Grouping(list) <==> Has(list, key)
    ensures key in Grouping(list) ==>
              Grouping(list)[key].values == Values(list, key) && FirstName(list, key) == Some(Grouping(list)[key].name)
    ensures key !in Grouping(list) ==> FirstName(list, key).None?
    decreases |list|
  {
    if list == [] {
    } else {
      GroupingIsFaithful(list[..|list| - 1], key);
    }
  }

  datatype Edit = AppendEdit(name: string, value: string) | SetEdit(name: string, value: string) | DeleteEdit(name: string)

  function EditOne(list: seq<Tuple>, e: Edit): seq<Tuple> {
    match e
    case AppendEdit(name, value) => Appended(list, name, value)
    case SetEdit(name, value) => Replaced(list, name, value)
    case DeleteEdit(name) => Without(list, Key(name))
  }

  function EditList(list: seq<Tuple>, edits: seq<Edit>): seq<Tuple> {
    if edits == [] then list else EditOne(EditList(list, edits[..|edits| - 1]), edits[|edits| - 1])
  }

  /** The same edits on the index alone. */
  function EditIndex(index: map<string, Entry>, edits: seq<Edit>): map<string, Entry> {
    if edits == [] then index
    else
      var e := edits[|edits| - 1];
      var before := EditIndex(index, edits[..|edits| - 1]);
      match e
      case AppendEdit(name, value) => AddTuple(before, (Trim(name), value))
      case SetEdit(name, value) => before[Key(name) := Entry(Trim(name), [value])]
      case DeleteEdit(name) => before - {Key(name)}
  }

  /** Editing the list and then grouping is editing the index, for every sequence of edits. */
  lemma {:induction false} IndexFollowsList(list: seq<Tuple>, edits: seq<Edit>)
    ensures Grouping(EditList(list, edits)) == EditIndex(Grouping(list), edits)
    decreases |edits|
  {
    if edits == [] {
    } else {
      IndexFollowsList(list, edits[..|edits| - 1]);
      var before := EditList(list, edits[..|edits| - 1]);
      match edits[|edits| - 1]
      case AppendEdit(name, value) => GroupingAppended(before, name, value);
      case SetEdit(name, value) => GroupingReplaced(before, name, value);
      case DeleteEdit(name) => GroupingWithout(before, Key(name));
    }
  }

  // ----- unique names -----

  /** A sequence that lists each element of a set once. */
  ghost predicate Enumerates(order: seq<string>, keys: set<string>) {
    NoDuplicates(order) && forall k :: k in order <==> k in keys
  }

  function Removed(keys: seq<string>, key: string): seq<string> {
    if keys == [] then [] else if keys[0] == key then Removed(keys[1..], key) else [keys[0]] + Removed(keys[1..], key)
  }

  lemma {:induction false} RemovedEnumerates(order: seq<string>, keys: set<string>, key: string)
    requires Enumerates(order, keys)
    ensures Enumerates(Removed(order, key), keys - {key})
  {
    if order == [] {
    } else {
      assert order == [order[0]] + order[1..];
      RemovedEnumerates(order[1..], keys - {order[0]}, key);
      ConsEnumerates(order[0], Removed(order[1..], key), keys - {order[0]} - {key});
      assert order[0] != key ==> keys - {order[0]} - {key} + {order[0]} == keys - {key};
      assert order[0] == key ==> keys - {order[0]} - {key} == keys - {key};
    }
  }

  lemma ConsEnumerates(x: string, order: seq<string>, keys: set<string>)
    requires x !in keys && Enumerates(order, keys)
    ensures Enumerates([x] + order, keys + {x})
  {}

  /** The distinct keys of a list in order of first appearance. */
  function KeyOrder(list: seq<Tuple>): seq<string> {
    if list == [] then []
    else
      var keys, key := KeyOrder(list[..|list| - 1]), Key(list[|list| - 1].0);
      if key in keys then keys else keys + [key]
  }

  lemma {:induction false} KeyOrderEnumerates(list: seq<Tuple>)
    ensures Enumerates(KeyOrder(list), Grouping(list).Keys)
    decreases |list|
  {
    if list == [] {
    } else {
      KeyOrderEnumerates(list[..|list| - 1]);
    }
  }

  /** Where a key is first seen. */
  function FirstAt(list: seq<Tuple>, key: string): nat {
    if list == [] then 0 else if Key(list[0].0) == key then 0 else 1 + FirstAt(list[1..], key)
  }

  lemma {:induction false} FirstAtAppended(list: seq<Tuple>, t: Tuple, key: string)
    ensures FirstAt(list, key) <= |list|
    ensures FirstAt(list, key) < |list| <==> exists i :: 0 <= i < |list| && Key(list[i].0) == key
    ensures FirstAt(list + [t], key) ==
            if FirstAt(list, key) < |list| then FirstAt(list, key) else if Key(t.0) == key then |list| else |list| + 1
  {
    if list == [] {
      assert [t][1..] == [];
    } else {
      FirstAtAppended(list[1..], t, key);
      assert (list + [t])[1..] == list[1..] + [t];
      assert forall i :: 0 < i < |list| ==> list[i] == list[1..][i - 1];
    }
  }

  /** The keys are listed in the order in which they are first seen. */
  lemma {:induction false} KeyOrderIsFirstSeen(list: seq<Tuple>)
    ensures forall i :: 0 <= i < |KeyOrder(list)| ==> FirstAt(list, KeyOrder(list)[i]) < |list|
    ensures forall i, j :: 0 <= i < j < |KeyOrder(list)| ==> FirstAt(list, KeyOrder(list)[i]) < FirstAt(list, KeyOrder(list)[j])
    decreases |list|
  {
    if list == [] {
    } else {
      var init, last := list[..|list| - 1], list[|list| - 1];
      KeyOrderIsFirstSeen(init);
      assert init + [last] == list;
      forall key { FirstAtAppended(init, last, key); }
      SeenIsListed(init, Key(last.0));
    }
  }

  lemma {:induction false} SeenIsListed(list: seq<Tuple>, key: string)
    ensures key in KeyOrder(list) <==> exists i :: 0 <= i < |list| && Key(list[i].0) == key
    decreases |list|
  {
    hide Key;
    if list == [] {
    } else {
      SeenIsListed(list[..|list| - 1], key);
      if Key(list[|list| - 1].0) == key { assert list[|list| - 1].0 == list[|list| - 1].0; }
    }
  }

  /** The display names an index gives to a sequence of keys. */
  function Displays(index: map<string, Entry>, keys: seq<string>): (names: seq<string>)
    ensures |names| <= |keys|
  {
    if keys == [] then []
    else Displays(index, keys[..|keys| - 1]) +
         (if keys[|keys| - 1] in index then [index[keys[|keys| - 1]].name] else [])
  }

  /** The display names, with multiplicity, of a multiset of keys do not depend on their order. */
  lemma {:induction false} DisplayCount(index: map<string, Entry>, order: seq<string>, keys: set<string>)
    requires Enumerates(order, keys)
    ensures multiset(Displays(index, order)) == NameBag(index, keys)
    decreases |order|
  {
    if order == [] {
      assert keys == {};
    } else {
      var init, last := order[..|order| - 1], order[|order| - 1];
      assert order == init + [last];
      assert Enumerates(init, keys - {last});
      DisplayCount(index, init, keys - {last});
      NameBagRemove(index, keys, last);
    }
  }

  ghost function NameBag(index: map<string, Entry>, keys: set<string>): multiset<string> {
    if keys == {} then multiset{}
    else
      var key :| key in keys;
      NameBag(index, keys - {key}) + (if key in index then multiset{index[key].name} else multiset{})
  }

  lemma {:induction false} NameBagRemove(index: map<string, Entry>, keys: set<string>, key: string)
    requires key in keys
    ensures NameBag(index, keys) ==
            NameBag(index, keys - {key}) + (if key in index then multiset{index[key].name} else multiset{})
    decreases |keys|
  {
    var x :| x in keys && NameBag(index, keys) ==
      NameBag(index, keys - {x}) + (if x in index then multiset{index[x].name} else multiset{});
    if x != key {
      NameBagRemove(index, keys - {x}, key);
      NameBagRemove(index, keys - {key}, x);
      assert keys - {x} - {key} == keys - {key} - {x};
    }
  }

  /** Stored names are trimmed and not empty. */
  ghost predicate Canonical(list: seq<Tuple>) {
    forall i :: 0 <= i < |list| ==> Trim(list[i].0) == list[i].0 != ""
  }

  lemma {:induction false} CanonicalWithout(list: seq<Tuple>, key: string)
    requires Canonical(list)
    ensures Canonical(Without(list, key))
    decreases |list|
  {
    if list == [] {
    } else {
      CanonicalWithout(list[..|list| - 1], key);
    }
  }

  lemma CanonicalReplaced(list: seq<Tuple>, name: string, value: string)
    requires Canonical(list) && Trim(name) != ""
    ensures Canonical(Replaced(list, name, value))
  {
    CanonicalWithout(list, Key(name));
    TrimIsIdempotent(name);
  }

  lemma EnumeratesWith(order: seq<string>, keys: set<string>, key: string)
    requires Enumerates(order, keys)
    ensures Enumerates(if key in keys then order else order + [key], keys + {key})
  {}

  /** The index is exactly the grouping of the list by lower-cased name. */
  ghost predicate Indexed(store: map<string, Entry>, order: seq<string>, list: seq<Tuple>) {
    store == Grouping(list) && Enumerates(order, store.Keys) && Canonical(list)
  }

  /** The index, the order and the list after `set`. */
  lemma ReplacedStaysValid(list: seq<Tuple>, order: seq<string>, name: string, value: string)
    requires Trim(name) != "" && Canonical(list) && Enumerates(order, Grouping(list).Keys)
    ensures Indexed(Grouping(list)[Key(name) := Entry(Trim(name), [value])],
                    if Key(name) in Grouping(list) then order else order + [Key(name)],
                    Replaced(list, name, value))
  {
    GroupingReplaced(list, name, value);
    CanonicalReplaced(list, name, value);
    EnumeratesWith(order, Grouping(list).Keys, Key(name));
    assert Grouping(list)[Key(name) := Entry(Trim(name), [value])].Keys == Grouping(list).Keys + {Key(name)};
  }

  lemma CanonicalPrefix(list: seq<Tuple>, n: nat)
    requires Canonical(list) && n < |list|
    ensures Trim(list[n].0) != "" && Appended(list[..n], list[n].0, list[n].1) == list[..n + 1]
  {}

  // ----- the class -----

  class Headers {
    var store: map<string, Entry>
    var order: seq<string>            // insertion order of the keys of the JavaScript map
    var entriesList: seq<Tuple>

    ghost predicate Valid()
      reads this
    {
      Indexed(store, order, entriesList)
    }

    constructor ()
      ensures Valid() && entriesList == []
    {
      store, order, entriesList := map[], [], [];
    }

    /** `new Headers(init)`: appends the tuples of the original one by one. */
    constructor Copy(init: Headers)
      requires init.Valid()
      ensures Valid() && entriesList == init.entriesList
    {
      store, order, entriesList := map[], [], [];
      new;
      var n := 0;
      while n < |init.entriesList|
        invariant n <= |init.entriesList| && Valid() && entriesList == init.entriesList[..n]
      {
        var (name, value) := init.entriesList[n];
        CanonicalPrefix(init.entriesList, n);
        var _ := Append(name, value);
        n := n + 1;
      }
    }

    /** `ok` is false where the source throws; nothing changes then. */
    method Append(name: string, value: string) returns (ok: bool)
      requires Valid()
      modifies this
      ensures Valid() && ok == (Trim(name) != "")
      ensures entriesList == if ok then Appended(old(entriesList), name, value) else old(entriesList)
    {
      var display := Trim(name);
      if display == "" { return false; }
      var key := Lower(display);
      GroupingAppended(entriesList, name, value);
      TrimIsIdempotent(name);
      entriesList := entriesList + [(display, value)];
      if key in store {
        store := store[key := store[key].(values := store[key].values + [value])];
      } else {
        store := store[key := Entry(display, [value])];
        order := order + [key];
      }
      return true;
    }

    method Set(name: string, value: string) returns (ok: bool)
      requires Valid()
      modifies this
      ensures Valid() && ok == (Trim(name) != "")
      ensures entriesList == if ok then Replaced(old(entriesList), name, value) else old(entriesList)
    {
      var display := Trim(name);
      if display == "" { return false; }
      var key := Lower(display);
      ReplacedStaysValid(entriesList, order, name, value);
      entriesList := Without(entriesList, key);
      if key !in store {
        order := order + [key];
      }
      store := store[key := Entry(display, [value])];
      entriesList := entriesList + [(display, value)];
      ok := true;
    }

    method Delete(name: string) returns (ok: bool)
      requires Valid()
      modifies this
      ensures Valid() && ok == (Trim(name) != "")
      ensures entriesList == if ok then Without(old(entriesList), Key(name)) else old(entriesList)
    {
      var display := Trim(name);
      if display == "" { return false; }
      var key := Lower(display);
      GroupingWithout(entriesList, key);
      RemovedEnumerates(order, store.Keys, key);
      CanonicalWithout(entriesList, key);
      store := store - {key};
      order := Removed(order, key);
      entriesList := Without(entriesList, key);
      return true;
    }

    method Get(name: string) returns (ok: bool, value: Option<string>)
      requires Valid()
      ensures ok == (Trim(name) != "")
      ensures value == if ok then Combined(entriesList, Key(name)) else None
    {
      if Trim(name) == "" { return false, None; }
      var key := Key(name);
      ok := true;
      GroupingIsFaithful(entriesList, key);
      value := if key in store then Some(Join(store[key].values)) else None;
    }

    method GetSetCookie() returns (values: seq<string>)
      requires Valid()
      ensures values == Values(entriesList, "set-cookie")
    {
      GroupingIsFaithful(entriesList, "set-cookie");
      values := if "set-cookie" in store then store["set-cookie"].values else [];
    }

    method HasName(name: string) returns (ok: bool, present: bool)
      requires Valid()
      ensures ok == (Trim(name) != "")
      ensures present == (ok && Has(entriesList, Key(name)))
    {
      if Trim(name) == "" { return false, false; }
      ok := true;
      GroupingIsFaithful(entriesList, Key(name));
      present := Key(name) in store;
    }

    /** `keys()`: display names in the order of the index. */
    method Keys() returns (names: seq<string>)
      requires Valid()
      ensures names == Displays(store, order)
    {
      names := [];
      var n := 0;
      while n < |order|
        invariant n <= |order| && names == Displays(store, order[..n])
      {
        assert order[..n + 1][..n] == order[..n];
        assert order[n] in order;
        names := names + [store[order[n]].name];
        n := n + 1;
      }
      assert order[..n] == order;
    }

    method ToOriginalNames() returns (names: seq<string>)
      requires Valid()
      ensures names == Displays(store, KeyOrder(entriesList))
    {
      names := [];
      var seen: set<string> := {};
      var n := 0;
      while n < |entriesList|
        invariant n <= |entriesList|
        invariant forall key :: key in seen <==> key in KeyOrder(entriesList[..n])
        invariant names == Displays(store, KeyOrder(entriesList[..n]))
      {
        var name := entriesList[n].0;
        assert entriesList[..n + 1][..n] == entriesList[..n];
        FirstAppearance(entriesList, n);
        if Key(name) !in seen {
          assert (KeyOrder(entriesList[..n]) + [Key(name)])[..|KeyOrder(entriesList[..n])|] == KeyOrder(entriesList[..n]);
          seen := seen + {Key(name)};
          names := names + [name];
        }
        n := n + 1;
      }
      assert entriesList[..n] == entriesList;
    }

    /** `toOriginalNames()` lists the display names of `keys()`, each as often. */
    lemma OriginalNamesPermuteKeys()
      requires Valid()
      ensures multiset(Displays(store, KeyOrder(entriesList))) == multiset(Displays(store, order))
    {
      KeyOrderEnumerates(entriesList);
      DisplayCount(store, KeyOrder(entriesList), store.Keys);
      DisplayCount(store, order, store.Keys);
    }
  }

  /** A key seen for the first time at position n is displayed by the name at n. */
  lemma FirstAppearance(list: seq<Tuple>, n: nat)
    requires n < |list|
    ensures Key(list[n].0) in Grouping(list)
    ensures Key(list[n].0) !in KeyOrder(list[..n]) ==> Grouping(list)[Key(list[n].0)].name == list[n].0
  {
    var key := Key(list[n].0);
    KeyOrderEnumerates(list[..n]);
    assert list[..n + 1][..n] == list[..n];
    NameIsStable(list, n + 1, key);
  }

  lemma {:induction false} NameIsStable(list: seq<Tuple>, n: nat, key: string)
    requires n <= |list| && key in Grouping(list[..n])
    ensures key in Grouping(list) && Grouping(list)[key].name == Grouping(list[..n])[key].name
    decreases |list| - n
  {
    if n == |list| {
      assert list[..n] == list;
    } else {
      assert list[..n + 1][..n] == list[..n];
      NameIsStable(list, n + 1, key);
    }
  }
}
