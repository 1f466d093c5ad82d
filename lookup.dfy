/**
 * The lookup both definition tables use: an entry matches when its name is equal
 * and its type is the same type.
 */
module Lookup {
  import opened LangModel

  datatype Key = Key(name: string, typ: JType)

  /** The index of the first entry with the given key, or -1. */
  function FirstMatch(keys: seq<Key>, key: Key): (k: int)
    ensures -1 <= k < |keys|
    ensures k >= 0 ==> keys[k] == key && forall j | 0 <= j < k :: keys[j] != key
    ensures k < 0 <==> key !in keys
  {
    if |keys| == 0 then -1
    else if keys[0] == key then 0
    else
      var k := FirstMatch(keys[1..], key);
      if k < 0 then -1 else k + 1
  }

  lemma FirstMatchAppend(keys: seq<Key>, more: seq<Key>, key: Key)
    requires key in keys
    ensures FirstMatch(keys + more, key) == FirstMatch(keys, key)
  {
    var k := FirstMatch(keys, key);
    assert (keys + more)[k] == key;
    var k2 := FirstMatch(keys + more, key);
    assert forall j | 0 <= j < k :: (keys + more)[j] == keys[j];
  }

  /** The first match is the position of a match with no match before it. */
  lemma FirstMatchAt(keys: seq<Key>, key: Key, i: nat)
    requires i < |keys| && keys[i] == key
    requires forall j | 0 <= j < i :: keys[j] != key
    ensures FirstMatch(keys, key) == i
  {
  }
}
