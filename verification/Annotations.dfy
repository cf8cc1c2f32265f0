/** The editor of additional annotations: an object edited as a list of key and value pairs. */
module Annotations {
  import opened Common

  datatype Entry = Entry(key: Option<string>, value: Option<string>)

  type FormObject = map<string, string>

  predicate Filled(text: Option<string>) {
    text.Some? && text.value != ""
  }

  // ----- duplicates -----

  ghost predicate HasDuplicate(list: seq<Entry>) {
    exists i, j :: 0 <= i < j < |list| &&
      list[i].key.Some? && list[i].key.value != "" && list[j].key == list[i].key
  }

  /** The filled-in keys. */
  ghost function KeysIn(list: seq<Entry>): set<string> {
    set i | 0 <= i < |list| && Filled(list[i].key) :: list[i].key.value
  }

  lemma OneMoreEntry(list: seq<Entry>, entry: Entry)
    ensures HasDuplicate(list + [entry]) <==>
            HasDuplicate(list) || (Filled(entry.key) && entry.key.value in KeysIn(list))
    ensures KeysIn(list + [entry]) == KeysIn(list) + if Filled(entry.key) then {entry.key.value} else {}
  {
    var more, n := list + [entry], |list|;
    assert more[n] == entry && forall i :: 0 <= i < n ==> more[i] == list[i];
    if HasDuplicate(list) {
      var i, j :| 0 <= i < j < n && Filled(list[i].key) && list[j].key == list[i].key;
      assert more[i] == list[i] && more[j] == list[j];
    }
    if Filled(entry.key) && entry.key.value in KeysIn(list) {
      var i :| 0 <= i < n && Filled(list[i].key) && list[i].key.value == entry.key.value;
      assert more[n].key == more[i].key;
    }
  }

  /** What the loops over the entries have noted about those they have seen. */
  ghost predicate Noted(list: seq<Entry>, keyList: seq<string>, duplicateFound: bool) {
    forall key: nat {:trigger Open(key)} :: Open(key) ==>
      && (duplicateFound <==> HasDuplicate(list))
      && forall k :: k in keyList <==> k in KeysIn(list)
  }

  lemma NothingNoted()
    ensures Noted([], [], false)
  {
  }

  lemma NoteEntry(list: seq<Entry>, keyList: seq<string>, duplicateFound: bool, entry: Entry)
    requires Noted(list, keyList, duplicateFound)
    ensures Noted(list + [entry],
                  if Filled(entry.key) && entry.key.value !in keyList then keyList + [entry.key.value] else keyList,
                  duplicateFound || (Filled(entry.key) && entry.key.value in keyList))
  {
    assert Open(0);
    OneMoreEntry(list, entry);
  }

  lemma NotedIsRight(list: seq<Entry>, keyList: seq<string>, duplicateFound: bool)
    requires Noted(list, keyList, duplicateFound)
    ensures duplicateFound <==> HasDuplicate(list)
  {
    assert Open(0);
  }

  // ----- between objects and lists -----

  /** The pairs of an object, in the order in which its keys are enumerated. */
  function FromObject(data: FormObject, order: seq<string>): seq<Entry>
    requires forall k :: k in order ==> k in data
  {
    seq(|order|, i requires 0 <= i < |order| => Entry(Some(order[i]), Some(data[order[i]])))
  }

  /** `order` enumerates the keys of the object. */
  ghost predicate Enumerates(order: seq<string>, data: FormObject) {
    && (forall k :: k in order <==> k in data)
    && Distinct(order)
  }

  function ToObject(list: seq<Entry>): FormObject {
    if list == [] then map[]
    else
      var last := list[|list| - 1];
      var init := ToObject(list[..|list| - 1]);
      if Filled(last.key) && Filled(last.value) then init[last.key.value := last.value.value] else init
  }

  /** What the parent is told: nothing rather than an empty object. */
  function Emitted(list: seq<Entry>): Option<FormObject> {
    if ToObject(list) == map[] then None else Some(ToObject(list))
  }

  /** Entry `i` is the last one with this key and a non-empty value. */
  ghost predicate LastFilled(list: seq<Entry>, k: string, i: int) {
    && 0 <= i < |list| && list[i].key == Some(k) && list[i].value.Some? && list[i].value.value != ""
    && forall j :: i < j < |list| && list[j].key == Some(k) ==> list[j].value.None? || list[j].value.value == ""
  }

  /** The emitted object maps exactly the non-empty keys that have a non-empty value, each to its last one. */
  lemma {:induction false} ToObjectTakesLast(list: seq<Entry>, k: string)
    ensures k in ToObject(list) <==> k != "" && exists i :: LastFilled(list, k, i)
    ensures forall i :: k != "" && LastFilled(list, k, i) ==> ToObject(list)[k] == list[i].value.value
    decreases |list|
  {
    if list != [] {
      var n := |list| - 1;
      var init, last := list[..n], list[n];
      ToObjectTakesLast(init, k);
      if last.key == Some(k) && Filled(last.value) {
        assert LastFilled(list, k, n);
      } else {
        forall i ensures LastFilled(init, k, i) <==> LastFilled(list, k, i) {
          assert 0 <= i < n ==> init[i] == list[i];
        }
      }
    }
  }

  /** So the parent is told nothing exactly when no entry is filled in. */
  lemma EmittedTakesLast(list: seq<Entry>)
    ensures var data := Emitted(list);
      && (forall k :: (data.Some? && k in data.value) <==> k != "" && exists i :: LastFilled(list, k, i))
      && (forall k, i :: k != "" && LastFilled(list, k, i) ==> data.Some? && data.value[k] == list[i].value.value)
  {
    forall k ensures k in ToObject(list) <==> k != "" && exists i :: LastFilled(list, k, i) {
      ToObjectTakesLast(list, k);
    }
    forall k, i | k != "" && LastFilled(list, k, i) ensures ToObject(list)[k] == list[i].value.value {
      ToObjectTakesLast(list, k);
    }
  }

  lemma {:induction false} ToObjectOfPrefix(data: FormObject, order: seq<string>, n: nat)
    requires Enumerates(order, data) && n <= |order|
    ensures ToObject(FromObject(data, order)[..n]) ==
            map k | k in order[..n] && k != "" && data[k] != "" :: data[k]
    decreases n
  {
    if n > 0 {
      ToObjectOfPrefix(data, order, n - 1);
      var list := FromObject(data, order);
      assert list[..n][..n - 1] == list[..n - 1];
      assert order[..n] == order[..n - 1] + [order[n - 1]];
    }
  }

  /** Object to list to object is the identity exactly for non-empty objects without empty keys or values. */
  lemma RoundTripIff(data: FormObject, order: seq<string>)
    requires Enumerates(order, data)
    ensures Emitted(FromObject(data, order)) == Some(data) <==>
      data != map[] && forall k :: k in data ==> k != "" && data[k] != ""
  {
    var list := FromObject(data, order);
    ToObjectOfPrefix(data, order, |order|);
    assert list[..|order|] == list && order[..|order|] == order;
    var kept := map k | k in order && k != "" && data[k] != "" :: data[k];
    assert ToObject(list) == kept;
    if forall k :: k in data ==> k != "" && data[k] != "" {
      assert kept == data;
    } else {
      var k :| k in data && (k == "" || data[k] == "");
      assert k !in kept;
    }
  }

  lemma ObjectListsHaveNoDuplicate(data: FormObject, order: seq<string>)
    requires Enumerates(order, data)
    ensures !HasDuplicate(FromObject(data, order))
  {
  }

  // ----- the editor -----

  datatype Edit = Update(entry: Entry, index: nat) | Remove(index: nat) | AddEmpty

  function Replaced(list: seq<Entry>, entry: Entry, index: nat): seq<Entry> {
    if index < |list| then list[index := entry] else list
  }

  /** `rest` is the list without the entry at `index`, if there is one. */
  ghost predicate Removed(list: seq<Entry>, rest: seq<Entry>, index: nat) {
    forall key: nat {:trigger Open(key)} :: Open(key) ==>
      if index < |list| then rest == list[..index] + list[index + 1..] else rest == list
  }

  lemma NothingRemoved(list: seq<Entry>, index: nat)
    requires list == []
    ensures Removed(list, [], index)
  {
  }

  lemma RemovedNext(list: seq<Entry>, rest: seq<Entry>, n: nat, index: nat)
    requires n < |list| && Removed(list[..n], rest, index)
    ensures Removed(list[..n + 1], if n == index then rest else rest + [list[n]], index)
  {
    assert Open(0);
    assert list[..n + 1] == list[..n] + [list[n]];
    if n == index {
      assert list[..n + 1][..index] + list[..n + 1][index + 1..] == list[..n];
    }
  }

  lemma RemovedMeans(list: seq<Entry>, rest: seq<Entry>, index: nat)
    requires Removed(list[..|list|], rest, index)
    ensures rest == if index < |list| then list[..index] + list[index + 1..] else list
  {
    assert Open(0);
    assert list[..|list|] == list;
  }

  class Editor {
    var listFormData: seq<Entry>
    var duplicateKeysPresent: bool
    var enabled: bool

    ghost predicate Valid()
      reads this
    {
      duplicateKeysPresent <==> HasDuplicate(listFormData)
    }

    constructor (data: Option<FormObject>, order: seq<string>)
      requires data.Some? ==> Enumerates(order, data.value)
      ensures Valid()
      ensures |listFormData| == if data.Some? then |order| else 0
      ensures forall i :: 0 <= i < |listFormData| ==>
        order[i] in data.value && listFormData[i] == Entry(Some(order[i]), Some(data.value[order[i]]))
      ensures enabled <==> data.Some? && data.value != map[]
    {
      if data.Some? {
        ObjectListsHaveNoDuplicate(data.value, order);
        listFormData := FromObject(data.value, order);
        enabled := |data.value| > 0;
      } else {
        listFormData, enabled := [], false;
      }
      duplicateKeysPresent := false;
    }

    method UpdateFormData(newElem: Entry, targetIndex: nat)
      requires Valid()
      modifies this`listFormData, this`duplicateKeysPresent
      ensures Valid() && |listFormData| == |old(listFormData)|
      ensures forall i :: 0 <= i < |listFormData| ==>
        listFormData[i] == if i == targetIndex then newElem else old(listFormData)[i]
    {
      var entries := listFormData;
      var newFormData: seq<Entry> := [];
      var keyList: seq<string> := [];
      var duplicateFound := false;
      ghost var wanted := Replaced(entries, newElem, targetIndex);
      NothingNoted();
      for index := 0 to |entries|
        invariant newFormData == wanted[..index]
        invariant Noted(newFormData, keyList, duplicateFound)
        invariant duplicateFound ==> duplicateKeysPresent
      {
        var elem := if index == targetIndex then newElem else entries[index];
        NoteEntry(newFormData, keyList, duplicateFound, elem);
        if Filled(elem.key) {
          if elem.key.value in keyList {
            duplicateKeysPresent := true;
            duplicateFound := true;
          } else {
            keyList := keyList + [elem.key.value];
          }
        }
        newFormData := newFormData + [elem];
      }
      NotedIsRight(newFormData, keyList, duplicateFound);
      if !duplicateFound {
        duplicateKeysPresent := false;
      }
      assert wanted[..|wanted|] == wanted;
      listFormData := newFormData;
    }

    method RemoveAtIndex(targetIndex: nat)
      requires Valid()
      modifies this
      ensures Valid()
      ensures listFormData == if targetIndex < |old(listFormData)|
        then old(listFormData)[..targetIndex] + old(listFormData)[targetIndex + 1..] else old(listFormData)
      ensures enabled == (old(enabled) && listFormData != [])
    {
      var entries := listFormData;
      var newFormData: seq<Entry> := [];
      var keyList: seq<string> := [];
      var duplicateFound := false;
      NothingRemoved(entries[..0], targetIndex);
      NothingNoted();
      for index := 0 to |entries|
        invariant Removed(entries[..index], newFormData, targetIndex)
        invariant Noted(newFormData, keyList, duplicateFound)
        invariant duplicateFound ==> duplicateKeysPresent
        invariant enabled == old(enabled)
      {
        var elem := entries[index];
        RemovedNext(entries, newFormData, index, targetIndex);
        if index != targetIndex {
          NoteEntry(newFormData, keyList, duplicateFound, elem);
          if Filled(elem.key) {
            if elem.key.value in keyList {
              duplicateKeysPresent := true;
              duplicateFound := true;
            } else {
              keyList := keyList + [elem.key.value];
            }
          }
          newFormData := newFormData + [elem];
        }
      }
      RemovedMeans(entries, newFormData, targetIndex);
      NotedIsRight(newFormData, keyList, duplicateFound);
      if !duplicateFound {
        duplicateKeysPresent := false;
      }
      if |newFormData| == 0 {
        enabled := false;
      }
      listFormData := newFormData;
    }

    method AddEmptyItem()
      requires Valid()
      modifies this`listFormData
      ensures Valid() && listFormData == old(listFormData) + [Entry(None, None)]
    {
      OneMoreEntry(listFormData, Entry(None, None));
      listFormData := listFormData + [Entry(None, None)];
    }

    /** What the change handler is called with. */
    method ConvertToObject() returns (data: Option<FormObject>)
      ensures data == Emitted(listFormData)
      ensures data.Some? ==> data.value != map[]
      ensures forall k :: (data.Some? && k in data.value) <==> k != "" && exists i :: LastFilled(listFormData, k, i)
      ensures forall k, i :: k != "" && LastFilled(listFormData, k, i) ==>
        data.Some? && data.value[k] == listFormData[i].value.value
    {
      EmittedTakesLast(listFormData);
      var newFormData: FormObject := map[];
      for i := 0 to |listFormData|
        invariant newFormData == ToObject(listFormData[..i])
      {
        assert listFormData[..i + 1][..i] == listFormData[..i];
        var elem := listFormData[i];
        if Filled(elem.key) && Filled(elem.value) {
          newFormData := newFormData[elem.key.value := elem.value.value];
        }
      }
      assert listFormData[..|listFormData|] == listFormData;
      data := if |newFormData| == 0 then None else Some(newFormData);
    }

    /** Whatever the sequence of edits, the flag says whether two entries share a non-empty key. */
    method EditAll(edits: seq<Edit>)
      requires Valid()
      modifies this
      ensures duplicateKeysPresent <==> HasDuplicate(listFormData)
    {
      for i := 0 to |edits|
        invariant Valid()
      {
        match edits[i]
        case Update(entry, index) => UpdateFormData(entry, index);
        case Remove(index) => RemoveAtIndex(index);
        case AddEmpty => AddEmptyItem();
      }
    }
  }
}
