// The content-addressed blob store, keyed by the hex form of a blob id and
// also writable by the server under ids of its own choosing.
module BlobStores {
  import opened Basics

  type Store = map<string, Bytes>

  function HexDigit(n: int): (c: char)
    requires 0 <= n < 16
  {
    "0123456789abcdef"[n]
  }

  function Hex(id: Bytes): string {
    if id == [] then []
    else [HexDigit(id[0] as int / 16), HexDigit(id[0] as int % 16)] + Hex(id[1..])
  }

  lemma HexDigitInjective(m: int, n: int)
    requires 0 <= m < 16 && 0 <= n < 16 && HexDigit(m) == HexDigit(n)
    ensures m == n
  {
    var digits := "0123456789abcdef";
    assert forall i, j :: 0 <= i < j < 16 ==> digits[i] != digits[j];
  }

  lemma {:induction false} HexInjective(a: Bytes, b: Bytes)
    requires Hex(a) == Hex(b)
    ensures a == b
  {
    if a != [] && b != [] {
      var x, y := Hex(a), Hex(b);
      assert x[0] == HexDigit(a[0] as int / 16) && x[1] == HexDigit(a[0] as int % 16) && x[2..] == Hex(a[1..]);
      assert y[0] == HexDigit(b[0] as int / 16) && y[1] == HexDigit(b[0] as int % 16) && y[2..] == Hex(b[1..]);
      HexDigitInjective(a[0] as int / 16, b[0] as int / 16);
      HexDigitInjective(a[0] as int % 16, b[0] as int % 16);
      HexInjective(a[1..], b[1..]);
    }
  }

  /** A key is the id in small hexadecimal digits, two to a byte, the high half first. */
  lemma {:induction false} HexReads(id: Bytes, k: nat)
    requires k < |id|
    ensures |Hex(id)| == 2 * |id|
    ensures Hex(id)[2 * k] == "0123456789abcdef"[id[k] as int / 16]
    ensures Hex(id)[2 * k + 1] == "0123456789abcdef"[id[k] as int % 16]
    decreases |id|
  {
    if |id| > 1 {
      HexReads(id[1..], if k > 0 then k - 1 else 0);
      assert Hex(id)[2..] == Hex(id[1..]);
    } else {
      assert id[1..] == [];
    }
  }

  function PutKnown(store: Store, id: Bytes, data: Bytes): Store {
    store[Hex(id) := data]
  }

  function Get(store: Store, id: Bytes): Option<Bytes> {
    if Hex(id) in store then Some(store[Hex(id)]) else None
  }

  /** Seen through ids, the store is a plain map: the hex keys never collide. */
  lemma StoreIsPlainMap(store: Store, id: Bytes, data: Bytes, other: Bytes)
    ensures Get(PutKnown(store, id, data), other) == if other == id then Some(data) else Get(store, other)
  {
    if Hex(id) == Hex(other) {
      HexInjective(id, other);
    }
  }

  /** One write to the store: the client's own blobs are filed under their hash. */
  datatype Write = Write(id: Bytes, data: Bytes)

  function Apply(store: Store, writes: seq<Write>): Store
    decreases |writes|
  {
    if writes == [] then store
    else Apply(PutKnown(store, writes[0].id, writes[0].data), writes[1..])
  }

  lemma {:induction false} ApplyAppend(store: Store, u: seq<Write>, v: seq<Write>)
    ensures Apply(store, u + v) == Apply(Apply(store, u), v)
    decreases |u|
  {
    if u == [] {
      assert u + v == v;
    } else {
      assert (u + v)[0] == u[0] && (u + v)[1..] == u[1..] + v;
      ApplyAppend(PutKnown(store, u[0].id, u[0].data), u[1..], v);
    }
  }

  /** The latest write to an id, if any. */
  function Latest(writes: seq<Write>, id: Bytes): Option<Bytes> {
    if writes == [] then None
    else if writes[|writes| - 1].id == id then Some(writes[|writes| - 1].data)
    else Latest(writes[..|writes| - 1], id)
  }

  /** A read returns the latest write under its id, or what was there before. */
  lemma {:induction false} GetIsLatestWrite(store: Store, writes: seq<Write>, id: Bytes)
    ensures Get(Apply(store, writes), id) ==
            if Latest(writes, id).Some? then Latest(writes, id) else Get(store, id)
  {
    if writes != [] {
      var front, last := writes[..|writes| - 1], writes[|writes| - 1];
      assert writes == front + [last];
      ApplyAppend(store, front, [last]);
      assert Apply(Apply(store, front), [last]) == PutKnown(Apply(store, front), last.id, last.data);
      StoreIsPlainMap(Apply(store, front), last.id, last.data, id);
      GetIsLatestWrite(store, front, id);
    }
  }

  class BlobStore {
    const hash: Bytes -> Bytes
    var data: Store
    ghost const owner: string  // the conversation it was created for

    constructor (hash: Bytes -> Bytes, ghost owner: string)
      ensures this.hash == hash && this.owner == owner && data == map[]
    {
      this.hash, this.owner := hash, owner;
      data := map[];
    }

    method Put(blob: Bytes) returns (id: Bytes)
      modifies this
      ensures id == hash(blob)
      ensures data == Apply(old(data), [Write(hash(blob), blob)])
    {
      id := hash(blob);
      PutKnownID(id, blob);
    }

    method PutKnownID(id: Bytes, blob: Bytes)
      modifies this
      ensures data == PutKnown(old(data), id, blob)
    {
      data := data[Hex(id) := blob];
    }

    method Read(id: Bytes) returns (blob: Option<Bytes>)
      ensures blob == Get(data, id)
    {
      if Hex(id) in data {
        blob := Some(data[Hex(id)]);
      } else {
        blob := None;
      }
    }
  }
}
