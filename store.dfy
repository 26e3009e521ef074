/** The document store the pages write to: two collections of field maps, `users/{uid}` and
    `games/{uid}`, with the two write modes the pages use (a full `setDoc`, a merging `setDoc`
    or `updateDoc`) and the `increment(n)` field value, read as "add n to the stored number". */
module Store {
  import opened Common

  /** A field value. `Time` stands for a `new Date()` stamp; `PaymentError` is the
      `{timestamp, message}` object the bet page records after a failed payment. */
  datatype Value =
    | Num(n: int)
    | Str(s: string)
    | Null
    | Time(ms: int)
    | Increment(amount: int)
    | PaymentError(at: int, message: string)

  type Doc = map<string, Value>

  datatype Collection = Users | Games

  /** What one store call does: succeed, or fail with the store's error message. */
  datatype Outcome = Ok | Fail(message: string)

  datatype ReadResult = ReadFailed(message: string) | Missing | Found(doc: Doc)

  /** One write that reached the store, with the document as it stands afterwards. */
  datatype Write = Write(collection: Collection, id: string, doc: Doc)

  function Lookup<K, V>(m: map<K, V>, k: K): (r: Option<V>)
    ensures r.Some? <==> k in m
    ensures r.Some? ==> r.value == m[k]
  {
    if k in m then Some(m[k]) else None
  }

  /** The number a field holds, with a missing or non-numeric field counting as absent. */
  function NumberAt(d: Option<Doc>, key: string): Option<int>
  {
    if d.Some? && key in d.value && d.value[key].Num? then Some(d.value[key].n) else None
  }

  /** A stored document: field values only, never a pending `increment`. */
  predicate Concrete(d: Doc)
  {
    forall k :: k in d ==> !d[k].Increment?
  }

  /** The stored value of one written field: `increment(n)` adds n to a stored number
      and sets n where there was none; every other value replaces what was there. */
  function Resolve(stored: Option<Value>, v: Value): (r: Value)
    ensures !v.Increment? ==> r == v
    ensures v.Increment? ==> r.Num?
  {
    match v
    case Increment(k) => if stored.Some? && stored.value.Num? then Num(stored.value.n + k) else Num(k)
    case _ => v
  }

  /** `setDoc(ref, data, {merge: true})` and `updateDoc(ref, data)`: written fields overlay
      the stored document, unwritten stored fields are kept. */
  function MergeInto(stored: Option<Doc>, data: Doc): (r: Doc)
    ensures stored.Some? ==> r.Keys == stored.value.Keys + data.Keys
    ensures stored.None? ==> r.Keys == data.Keys
    ensures forall k :: k in data ==> r[k] == Resolve(if stored.Some? then Lookup(stored.value, k) else None, data[k])
    ensures forall k :: k in r && k !in data ==> stored.Some? && k in stored.value && r[k] == stored.value[k]
  {
    var old_ := if stored.Some? then stored.value else map[];
    map k | k in old_.Keys + data.Keys ::
      if k in data then Resolve(Lookup(old_, k), data[k]) else old_[k]
  }

  /** `setDoc(ref, data)` without merge: the document is replaced by `data`. */
  function Overwrite(data: Doc): (r: Doc)
    ensures r.Keys == data.Keys
    ensures forall k :: k in data && !data[k].Increment? ==> r[k] == data[k]
  {
    MergeInto(None, data)
  }

  /** An increment written through a merge adds exactly its amount to the stored number. */
  lemma IncrementAdds(stored: Option<Doc>, data: Doc, key: string)
    requires key in data && data[key].Increment?
    ensures NumberAt(Some(MergeInto(stored, data)), key)
         == Some((if NumberAt(stored, key).Some? then NumberAt(stored, key).value else 0) + data[key].amount)
  {
  }

  /** The store: both collections and the ordered log of writes that reached it. */
  class Firestore {
    var users: map<string, Doc>
    var games: map<string, Doc>
    var log: seq<Write>

    constructor (users: map<string, Doc>, games: map<string, Doc>)
      ensures this.users == users && this.games == games && log == []
    {
      this.users := users;
      this.games := games;
      log := [];
    }

    function Docs(c: Collection): map<string, Doc>
      reads this
    {
      if c == Users then users else games
    }

    /** `getDoc`: the stored document, its absence, or the call's failure. */
    method Get(c: Collection, id: string, outcome: Outcome) returns (r: ReadResult)
      ensures outcome.Fail? ==> r == ReadFailed(outcome.message)
      ensures outcome.Ok? && id in Docs(c) ==> r == Found(Docs(c)[id])
      ensures outcome.Ok? && id !in Docs(c) ==> r == Missing
    {
      if outcome.Fail? {
        r := ReadFailed(outcome.message);
      } else if id in Docs(c) {
        r := Found(Docs(c)[id]);
      } else {
        r := Missing;
      }
    }

    /** `setDoc`, merging or replacing. A failed call changes nothing. */
    method Set(c: Collection, id: string, data: Doc, merge: bool, outcome: Outcome) returns (r: Outcome)
      modifies this
      ensures r == outcome
      ensures outcome.Fail? ==> users == old(users) && games == old(games) && log == old(log)
      ensures outcome.Ok? ==>
        var d := if merge then MergeInto(Lookup(old(Docs(c)), id), data) else Overwrite(data);
        && Docs(c) == old(Docs(c))[id := d]
        && (c == Users ==> games == old(games))
        && (c == Games ==> users == old(users))
        && log == old(log) + [Write(c, id, d)]
    {
      r := outcome;
      if outcome.Ok? {
        var d := if merge then MergeInto(Lookup(Docs(c), id), data) else Overwrite(data);
        if c == Users {
          users := users[id := d];
        } else {
          games := games[id := d];
        }
        log := log + [Write(c, id, d)];
      }
    }

    /** `updateDoc`: a merge that fails when the document does not exist. */
    method Update(c: Collection, id: string, data: Doc, outcome: Outcome) returns (r: Outcome)
      modifies this
      ensures r.Ok? <==> outcome.Ok? && id in old(Docs(c))
      ensures outcome.Fail? ==> r == outcome
      ensures outcome.Ok? && id !in old(Docs(c)) ==> r == Fail("No document to update")
      ensures r.Fail? ==> users == old(users) && games == old(games) && log == old(log)
      ensures r.Ok? ==>
        var d := MergeInto(Some(old(Docs(c))[id]), data);
        && Docs(c) == old(Docs(c))[id := d]
        && (c == Users ==> games == old(games))
        && (c == Games ==> users == old(users))
        && log == old(log) + [Write(c, id, d)]
    {
      if outcome.Fail? {
        r := outcome;
      } else if id !in Docs(c) {
        r := Fail("No document to update");
      } else {
        r := Set(c, id, data, true, Ok);
      }
    }
  }
}
