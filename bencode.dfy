/** Decoded bencode values (BEP 3, section "bencoding"), as bencodepy hands them to Python:
    int, bytes, list and an order-preserving dict keyed by bytes. */
module Bencode {
  import opened Results

  newtype uint8 = x: int | 0 <= x < 256

  /** A decoded value. A `Dict` lists its entries in decoding order. A decoded dictionary is a
      Python dict and never holds a key twice; `Dict` admits repeated keys, but such a list
      stands for no decoded metainfo. The facts that depend on unique keys (`GetStored`)
      require `UniqueKeys`; the others hold for every list. */
  datatype Value =
    | Int(i: int)
    | Bytes(b: seq<uint8>)
    | List(items: seq<Value>)
    | Dict(entries: seq<(seq<uint8>, Value)>)

  /** A Python dict never holds a key twice. */
  ghost predicate UniqueKeys(entries: seq<(seq<uint8>, Value)>) {
    forall i, j :: 0 <= i < j < |entries| ==> entries[i].0 != entries[j].0
  }

  /** `d.get(key)`: the value stored under `key`, or None when the key is absent. */
  function Get(entries: seq<(seq<uint8>, Value)>, key: seq<uint8>): (r: Option<Value>)
    ensures r.None? <==> forall k :: 0 <= k < |entries| ==> entries[k].0 != key
    ensures r.Some? ==> exists k :: 0 <= k < |entries| && entries[k] == (key, r.value)
  {
    if |entries| == 0 then None
    else if entries[0].0 == key then Some(entries[0].1)
    else Get(entries[1..], key)
  }

  /** `d.get(key, default)`. */
  function GetOr(entries: seq<(seq<uint8>, Value)>, key: seq<uint8>, default: Value): Value {
    match Get(entries, key)
    case Some(v) => v
    case None => default
  }

  /** In a dictionary with unique keys, looking up a stored key gives the value stored with it. */
  lemma {:induction false} GetStored(entries: seq<(seq<uint8>, Value)>, k: nat)
    requires UniqueKeys(entries)
    requires k < |entries|
    ensures Get(entries, entries[k].0) == Some(entries[k].1)
  {
    if k > 0 {
      assert entries[0].0 != entries[k].0;
      assert UniqueKeys(entries[1..]) by {
        forall i, j | 0 <= i < j < |entries[1..]| ensures entries[1..][i].0 != entries[1..][j].0 {
          assert entries[1..][i] == entries[i + 1] && entries[1..][j] == entries[j + 1];
        }
      }
      GetStored(entries[1..], k - 1);
      assert entries[1..][k - 1] == entries[k];
    }
  }

  /** Looking a key up is unaffected by entries stored under other keys. */
  lemma {:induction false} GetSkipsOtherKeys(front: seq<(seq<uint8>, Value)>, back: seq<(seq<uint8>, Value)>, key: seq<uint8>)
    requires forall k :: 0 <= k < |front| ==> front[k].0 != key
    ensures Get(front + back, key) == Get(back, key)
  {
    if |front| > 0 {
      assert (front + back)[1..] == front[1..] + back;
      GetSkipsOtherKeys(front[1..], back, key);
    } else {
      assert front + back == back;
    }
  }
}
