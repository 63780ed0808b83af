/**
 * The connector store: a bolt bucket "connectors" holding each connector's
 * JSON encoding under its id, usable only while the database is open.
 */
module ConnectorStore {
  import opened Wrappers
  import opened Models

  /** The errors a store operation returns. */
  datatype DbError =
    | NotOpen          // the database has not been opened
    | EncodeFailed     // json.Marshal refused the connector
    | DecodeFailed     // the stored bytes are not a connector
    | KeyRequired      // bolt refuses to put an empty key

  /** The JSON encoding of the persisted connector fields, and its decoding; None on failure. */
  datatype RecordCodec = RecordCodec(
    encode: ConnectorRecord -> Option<Bytes>,
    decode: Bytes -> Option<ConnectorRecord>)

  /** Decoding what was encoded gives back the record. */
  ghost predicate RoundTrips(codec: RecordCodec) {
    forall r :: codec.encode(r).Some? ==> codec.decode(codec.encode(r).value) == Some(r)
  }

  /** The bucket's contents: key to stored bytes. */
  type Store = map<string, Bytes>

  /** The result of a store operation: the error it returns and the contents it leaves. */
  datatype Outcome = Outcome(err: Option<DbError>, store: Store)

  /** Bucket.Put: stores the value under a non-empty key, replacing what was there. */
  function Put(store: Store, key: string, value: Bytes): (o: Outcome)
    ensures o.err.None? <==> |key| > 0
    ensures o.err.Some? ==> o == Outcome(Some(KeyRequired), store)
    ensures o.err.None? ==> key in o.store && o.store[key] == value
    ensures o.err.None? ==> forall k :: k != key ==> (k in o.store <==> k in store)
    ensures o.err.None? ==> forall k :: k != key && k in store ==> o.store[k] == store[k]
  {
    if |key| == 0 then Outcome(Some(KeyRequired), store) else Outcome(None, store[key := value])
  }

  /** InsertConnector: the encoded record under its id. */
  function Insert(open: bool, store: Store, codec: RecordCodec, r: ConnectorRecord): (o: Outcome)
    ensures !open ==> o == Outcome(Some(NotOpen), store)
    ensures open && codec.encode(r).None? ==> o == Outcome(Some(EncodeFailed), store)
    ensures o.err.None? <==> open && codec.encode(r).Some? && |r.id| > 0
    ensures o.err.Some? ==> o.store == store
    ensures o.err.None? ==> o.store == store[r.id := codec.encode(r).value]
  {
    if !open then Outcome(Some(NotOpen), store)
    else match codec.encode(r)
      case None => Outcome(Some(EncodeFailed), store)
      case Some(enc) => Put(store, r.id, enc)
  }

  /** DeleteConnector: the key removed; deleting an absent key is no error. */
  function Delete(open: bool, store: Store, id: string): (o: Outcome)
    ensures !open ==> o == Outcome(Some(NotOpen), store)
    ensures open ==> o.err.None? && id !in o.store
    ensures open ==> forall k :: k != id ==> (k in o.store <==> k in store)
    ensures open ==> forall k :: k != id && k in store ==> o.store[k] == store[k]
  {
    if !open then Outcome(Some(NotOpen), store) else Outcome(None, store - {id})
  }

  /**
   * SaveConnectorState: the stored connector, decoded, with its running flag
   * replaced and encoded again (an encoding failure is ignored and stores empty
   * bytes), put under the decoded connector's own id.
   */
  function SaveState(open: bool, store: Store, codec: RecordCodec, id: string, running: bool): (o: Outcome)
    ensures !open ==> o == Outcome(Some(NotOpen), store)
    ensures open && id !in store ==> o == Outcome(None, store)
    ensures open && id in store && codec.decode(store[id]).None? ==> o == Outcome(Some(DecodeFailed), store)
    ensures open && id in store && codec.decode(store[id]).Some? ==>
      var con := codec.decode(store[id]).value.(running := running);
      var enc := if codec.encode(con).Some? then codec.encode(con).value else [];
      o == Put(store, con.id, enc)
  {
    if !open then Outcome(Some(NotOpen), store)
    else if id !in store then Outcome(None, store)
    else match codec.decode(store[id])
      case None => Outcome(Some(DecodeFailed), store)
      case Some(con) =>
        var con := con.(running := running);
        var enc := match codec.encode(con) case Some(e) => e case None => [];
        Put(store, con.id, enc)
  }

  /** GetConnectors: every stored value that decodes, in the given key order; the others are skipped. */
  function Loaded(order: seq<string>, store: Store, decode: Bytes -> Option<ConnectorRecord>): (r: seq<ConnectorRecord>)
    requires forall i :: 0 <= i < |order| ==> order[i] in store
    ensures |r| <= |order|
    decreases |order|
  {
    if order == [] then []
    else
      var k := order[|order| - 1];
      Loaded(order[..|order| - 1], store, decode) + match decode(store[k]) case Some(c) => [c] case None => []
  }

  lemma {:induction false} LoadedPrefixMembership(order: seq<string>, store: Store,
                                                  decode: Bytes -> Option<ConnectorRecord>, c: ConnectorRecord)
    requires forall i :: 0 <= i < |order| ==> order[i] in store
    ensures c in Loaded(order, store, decode) <==>
      exists i :: 0 <= i < |order| && decode(store[order[i]]) == Some(c)
    decreases |order|
  {
    if order != [] {
      var init := order[..|order| - 1];
      var k := order[|order| - 1];
      var tail := match decode(store[k]) case Some(d) => [d] case None => [];
      assert Loaded(order, store, decode) == Loaded(init, store, decode) + tail;
      LoadedPrefixMembership(init, store, decode, c);
      if c in Loaded(order, store, decode) {
        if c !in Loaded(init, store, decode) {
          assert c in tail;
          assert decode(store[order[|order| - 1]]) == Some(c);
        } else {
          var i :| 0 <= i < |init| && decode(store[init[i]]) == Some(c);
          assert order[i] == init[i];
        }
      } else {
        forall i | 0 <= i < |order|
          ensures decode(store[order[i]]) != Some(c)
        {
          if i < |init| {
            assert order[i] == init[i];
          } else {
            assert c !in tail;
          }
        }
      }
    }
  }

  /** A record is loaded exactly when some stored value decodes to it. */
  lemma LoadedMembership(order: seq<string>, store: Store, decode: Bytes -> Option<ConnectorRecord>,
                         c: ConnectorRecord)
    requires IsEnumeration(order, store.Keys)
    ensures c in Loaded(order, store, decode) <==> exists k :: k in store && decode(store[k]) == Some(c)
  {
    LoadedPrefixMembership(order, store, decode, c);
    if exists k :: k in store && decode(store[k]) == Some(c) {
      var k :| k in store && decode(store[k]) == Some(c);
      var i :| 0 <= i < |order| && order[i] == k;
    }
  }

  /** When every stored value decodes, one record is loaded per key, in key order. */
  lemma {:induction false} LoadedAllDecodable(order: seq<string>, store: Store, decode: Bytes -> Option<ConnectorRecord>)
    requires forall i :: 0 <= i < |order| ==> order[i] in store && decode(store[order[i]]).Some?
    ensures |Loaded(order, store, decode)| == |order|
    ensures forall i :: 0 <= i < |order| ==> Some(Loaded(order, store, decode)[i]) == decode(store[order[i]])
    decreases |order|
  {
    if order != [] {
      LoadedAllDecodable(order[..|order| - 1], store, decode);
    }
  }

  /** What InsertConnector stores, loading gives back. */
  lemma InsertThenLoad(store: Store, codec: RecordCodec, r: ConnectorRecord, order: seq<string>)
    requires RoundTrips(codec)
    requires Insert(true, store, codec, r).err.None?
    requires IsEnumeration(order, Insert(true, store, codec, r).store.Keys)
    ensures r in Loaded(order, Insert(true, store, codec, r).store, codec.decode)
  {
    var s' := Insert(true, store, codec, r).store;
    LoadedMembership(order, s', codec.decode, r);
  }

  /**
   * For a connector stored under its own id, SaveConnectorState changes the
   * running flag and nothing else, and leaves every other key alone.
   */
  lemma SaveStateSetsRunning(store: Store, codec: RecordCodec, id: string, running: bool, con: ConnectorRecord)
    requires RoundTrips(codec)
    requires id in store && codec.decode(store[id]) == Some(con) && con.id == id && |id| > 0
    requires codec.encode(con.(running := running)).Some?
    ensures var o := SaveState(true, store, codec, id, running);
      && o.err.None?
      && o.store.Keys == store.Keys
      && codec.decode(o.store[id]) == Some(con.(running := running))
      && forall k :: k in store && k != id ==> o.store[k] == store[k]
  {
  }

  /**
   * A stored value whose decoded id differs from its key is rewritten under the
   * decoded id, and the value under the original key stays as it was.
   */
  lemma SaveStateWritesUnderDecodedId(store: Store, codec: RecordCodec, id: string, running: bool, con: ConnectorRecord)
    requires id in store && codec.decode(store[id]) == Some(con) && con.id != id && |con.id| > 0
    ensures var o := SaveState(true, store, codec, id, running);
      o.err.None? && o.store[id] == store[id] && con.id in o.store
  {
  }

  /** The store and the package-level `open` flag. */
  class Database {
    var open: bool
    var store: Store
    const codec: RecordCodec

    /** A database handle over what the bucket already holds; not yet open. */
    constructor (codec: RecordCodec, persisted: Store)
      ensures !open && store == persisted && this.codec == codec
    {
      open := false;
      store := persisted;
      this.codec := codec;
    }

    /** Open: the bucket exists and the store is usable. A failing bolt.Open ends the process. */
    method Open()
      modifies this
      ensures open && store == old(store)
    {
      open := true;
    }

    method Close()
      modifies this
      ensures !open && store == old(store)
    {
      open := false;
    }

    method InsertConnector(r: ConnectorRecord) returns (err: Option<DbError>)
      modifies this
      ensures open == old(open)
      ensures Outcome(err, store) == Insert(old(open), old(store), codec, r)
    {
      if !open {
        return Some(NotOpen);
      }
      var enc := codec.encode(r);
      if enc.None? {
        return Some(EncodeFailed);
      }
      if |r.id| == 0 {
        return Some(KeyRequired);
      }
      store := store[r.id := enc.value];
      err := None;
    }

    /** GetConnectors: `order` is the order in which the bucket's cursor visits the keys. */
    method GetConnectors(order: seq<string>) returns (err: Option<DbError>, connectors: seq<ConnectorRecord>)
      requires IsEnumeration(order, store.Keys)
      ensures !open ==> err == Some(NotOpen) && connectors == []
      ensures open ==> err.None? && connectors == Loaded(order, store, codec.decode)
    {
      if !open {
        return Some(NotOpen), [];
      }
      connectors := [];
      var i := 0;
      while i < |order|
        invariant 0 <= i <= |order|
        invariant connectors == Loaded(order[..i], store, codec.decode)
      {
        assert order[..i + 1][..i] == order[..i];
        var con := codec.decode(store[order[i]]);
        if con.Some? {
          connectors := connectors + [con.value];
        }
        i := i + 1;
      }
      assert order[..i] == order;
      err := None;
    }

    method DeleteConnector(id: string) returns (err: Option<DbError>)
      modifies this
      ensures open == old(open)
      ensures Outcome(err, store) == Delete(old(open), old(store), id)
    {
      if !open {
        return Some(NotOpen);
      }
      store := store - {id};
      err := None;
    }

    method SaveConnectorState(id: string, running: bool) returns (err: Option<DbError>)
      modifies this
      ensures open == old(open)
      ensures Outcome(err, store) == SaveState(old(open), old(store), codec, id, running)
    {
      if !open {
        return Some(NotOpen);
      }
      if id !in store {
        return None;
      }
      var decoded := codec.decode(store[id]);
      if decoded.None? {
        return Some(DecodeFailed);
      }
      var con := decoded.value.(running := running);
      var enc := codec.encode(con);
      var bytes := if enc.Some? then enc.value else [];
      if |con.id| == 0 {
        return Some(KeyRequired);
      }
      store := store[con.id := bytes];
      err := None;
    }
  }
}
