/** Durable records of pending offchain spends (spend_store.rs). */
module SpendStore {
  import opened Wrappers
  import opened Bitcoin

  type Id = string

  datatype SpendStage = Submitting | Submitted | Finalized

  function Rank(stage: SpendStage): nat {
    match stage case Submitting => 0 case Submitted => 1 case Finalized => 2
  }

  /** A stored text field: decodable, or not. */
  datatype Encoded<T> = Encoded(value: T) | Garbled

  function EncodeAll<T>(values: seq<T>): (r: seq<Encoded<T>>)
    ensures |r| == |values|
    ensures forall i :: 0 <= i < |r| ==> r[i] == Encoded(values[i])
  {
    seq(|values|, i requires 0 <= i < |values| => Encoded(values[i]))
  }

  function DecodeAll<T>(texts: seq<Encoded<T>>): (r: Option<seq<T>>)
    ensures r.Some? <==> Garbled !in texts
    ensures r.Some? ==> EncodeAll(r.value) == texts
  {
    if texts == [] then Some([])
    else if texts[0].Garbled? then None
    else
      match DecodeAll(texts[1..])
      case None => None
      case Some(rest) => Some([texts[0].value] + rest)
  }

  lemma DecodeEncode<T>(values: seq<T>)
    ensures DecodeAll(EncodeAll(values)) == Some(values)
  {
    assert forall i :: 0 <= i < |values| ==> EncodeAll(values)[i] != Garbled;
    EncodeInjective(DecodeAll(EncodeAll(values)).value, values);
  }

  lemma EncodeInjective<T>(s: seq<T>, t: seq<T>)
    requires EncodeAll(s) == EncodeAll(t)
    ensures s == t
  {
  }

  datatype PendingSpend = PendingSpend(
    id: Id,
    arkTxid: Encoded<Txid>,
    signedCheckpoints: seq<Encoded<Psbt>>,
    stage: SpendStage,
    token: string,
    arkTx: Option<Encoded<Psbt>>,
    unsignedCheckpoints: seq<Encoded<Psbt>>,
    partySignedCheckpoints: seq<seq<Encoded<Psbt>>>,
    serverSignedArkTx: Option<Encoded<Psbt>>)

  type Records = map<Id, PendingSpend>

  function Lookup(records: Records, id: Id): Option<PendingSpend> {
    if id in records then Some(records[id]) else None
  }

  /** A record with an empty token, from an older version, matches any token. */
  predicate TokenMatches(existing: PendingSpend, token: string) {
    existing.token == "" || existing.token == token
  }

  datatype StoreError = StoreError

  /**
   * A store whose operations may fail. A failed write may still have taken
   * effect: the file store renames before it syncs the directory.
   */
  class Store {
    var records: Records

    constructor ()
      ensures records == map[]
    {
      records := map[];
    }

    method Load(id: Id) returns (r: Result<Option<PendingSpend>, StoreError>)
      ensures r.Ok? ==> r.value == Lookup(records, id)
    {
      var fails: bool := *;
      if fails {
        return Err(StoreError);
      }
      return Ok(if id in records then Some(records[id]) else None);
    }

    method Save(spend: PendingSpend) returns (r: Result<(), StoreError>)
      modifies this
      ensures r.Ok? ==> records == old(records)[spend.id := spend]
      ensures r.Err? ==> records == old(records) || records == old(records)[spend.id := spend]
    {
      var applied: bool := *;
      var fails: bool := *;
      if applied || !fails {
        records := records[spend.id := spend];
      }
      return if fails then Err(StoreError) else Ok(());
    }

    method Remove(id: Id) returns (r: Result<(), StoreError>)
      modifies this
      ensures r.Ok? ==> records == old(records) - {id}
      ensures r.Err? ==> records == old(records) || records == old(records) - {id}
    {
      var applied: bool := *;
      var fails: bool := *;
      if applied || !fails {
        records := records - {id};
      }
      return if fails then Err(StoreError) else Ok(());
    }

    /** Remove the record only if it carries `token`; report whether it was removed. */
    method RemoveIf(id: Id, token: string) returns (r: Result<bool, StoreError>)
      modifies this
      ensures r == Ok(true) ==>
                && id in old(records) && old(records)[id].token in {"", token}
                && records == old(records) - {id}
      ensures r == Ok(false) ==>
                && (id in old(records) ==> old(records)[id].token !in {"", token})
                && records == old(records)
      ensures records != old(records) ==>
                && id in old(records) && old(records)[id].token in {"", token}
                && records == old(records) - {id}
    {
      var existing :- Load(id);
      if existing.Some? && TokenMatches(existing.value, token) {
        var _ :- Remove(id);
        return Ok(true);
      }
      return Ok(false);
    }

    /** Overwrite the record only if it carries the same token; report whether it was written. */
    method SaveIf(spend: PendingSpend) returns (r: Result<bool, StoreError>)
      modifies this
      ensures r == Ok(true) ==>
                && spend.id in old(records) && old(records)[spend.id].token in {"", spend.token}
                && records == old(records)[spend.id := spend]
      ensures r == Ok(false) ==>
                && (spend.id in old(records) ==> old(records)[spend.id].token !in {"", spend.token})
                && records == old(records)
      ensures records != old(records) ==>
                && spend.id in old(records) && old(records)[spend.id].token in {"", spend.token}
                && records == old(records)[spend.id := spend]
    {
      var existing :- Load(spend.id);
      if existing.Some? && TokenMatches(existing.value, spend.token) {
        var _ :- Save(spend);
        return Ok(true);
      }
      return Ok(false);
    }
  }
}
