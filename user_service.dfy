/** The user-profile service: an overlay merge of the stored profile with new fields,
    stamped with `updatedAt` always and `createdAt` on first creation, written back with a
    merging write; and the profile read that answers "no profile" on any failure. */
module UserService {
  import opened Common
  import opened Store

  const UpdatedAt: string := "updatedAt"
  const CreatedAt: string := "createdAt"

  /** The document `createOrUpdateUserProfile` builds: `{...existing, ...data, updatedAt: now}`,
      plus `createdAt: now` when there was no stored profile. */
  function MergeProfile(existing: Option<Doc>, data: Doc, now: int): (r: Doc)
    // every supplied key is written with the supplied value, except the two stamps
    ensures forall k :: k in data && k != UpdatedAt && !(k == CreatedAt && existing.None?) ==> k in r && r[k] == data[k]
    // keys only the stored profile has are kept with their stored value
    ensures existing.Some? ==> forall k :: k in existing.value && k !in data && k != UpdatedAt ==> k in r && r[k] == existing.value[k]
    // updatedAt is always the current time
    ensures UpdatedAt in r && r[UpdatedAt] == Time(now)
    // createdAt is stamped exactly when the profile did not exist
    ensures existing.None? ==> CreatedAt in r && r[CreatedAt] == Time(now)
    ensures existing.Some? && CreatedAt in r ==> (CreatedAt in data && r[CreatedAt] == data[CreatedAt]) || (CreatedAt !in data && CreatedAt in existing.value && r[CreatedAt] == existing.value[CreatedAt])
    // nothing else appears
    ensures r.Keys == data.Keys + (if existing.Some? then existing.value.Keys else {}) + {UpdatedAt} + (if existing.None? then {CreatedAt} else {})
  {
    var base := (if existing.Some? then existing.value else map[]) + data + map[UpdatedAt := Time(now)];
    if existing.None? then base[CreatedAt := Time(now)] else base
  }

  /** The users collection after `createOrUpdateUserProfile(uid, data)`, given how the read
      and the write go: a failure anywhere leaves the collection as it was. */
  function ProfileWritten(users: map<string, Doc>, uid: string, data: Doc, now: int, read: Outcome, write: Outcome): map<string, Doc>
  {
    if read.Ok? && write.Ok? then
      users[uid := MergeInto(Lookup(users, uid), MergeProfile(Lookup(users, uid), data, now))]
    else users
  }

  /** What the merging write stores for one written key: the supplied value, or for an
      `increment(n)` the stored number plus n. Stored keys the write does not mention survive. */
  lemma ProfileWriteEffect(users: map<string, Doc>, uid: string, data: Doc, now: int, key: string)
    requires key in data && key != UpdatedAt && key != CreatedAt
    requires uid in users ==> Concrete(users[uid])
    ensures var after := ProfileWritten(users, uid, data, now, Ok, Ok);
      && uid in after && key in after[uid]
      && (!data[key].Increment? ==> after[uid][key] == data[key])
      && (data[key].Increment? ==>
            NumberAt(Some(after[uid]), key)
            == Some((if NumberAt(Lookup(users, uid), key).Some? then NumberAt(Lookup(users, uid), key).value else 0) + data[key].amount))
    ensures var after := ProfileWritten(users, uid, data, now, Ok, Ok);
      uid in users ==> forall k :: k in users[uid] && k !in data && k != UpdatedAt ==> after[uid][k] == users[uid][k]
  {
    var existing := Lookup(users, uid);
    var merged := MergeProfile(existing, data, now);
    assert merged[key] == data[key];
    if data[key].Increment? {
      IncrementAdds(existing, merged, key);
    }
  }

  /** `createOrUpdateUserProfile`: read the profile, merge, write it back. Returns true on
      success and false on any failure; it never throws. */
  method CreateOrUpdateUserProfile(store: Firestore, uid: string, data: Doc, now: int, read: Outcome, write: Outcome)
    returns (ok: bool)
    modifies store
    ensures ok == (read.Ok? && write.Ok?)
    ensures store.users == ProfileWritten(old(store.users), uid, data, now, read, write)
    ensures store.games == old(store.games)
    ensures store.log == old(store.log) + (if ok then [Write(Users, uid, store.users[uid])] else [])
  {
    var got := store.Get(Users, uid, read);
    if got.ReadFailed? {
      return false;
    }
    var existing := if got.Found? then Some(got.doc) else None;
    var updated := MergeProfile(existing, data, now);
    var r := store.Set(Users, uid, updated, true, write);
    ok := r.Ok?;
  }

  /** `getUserProfile`: the stored profile, or none when it is absent or the read fails. */
  method GetUserProfile(store: Firestore, uid: string, read: Outcome) returns (r: Option<Doc>)
    ensures r.Some? <==> read.Ok? && uid in store.users
    ensures r.Some? ==> r.value == store.users[uid]
  {
    var got := store.Get(Users, uid, read);
    r := if got.Found? then Some(got.doc) else None;
  }
}
