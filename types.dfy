/**
 * The record shapes the client exchanges with its server, and the lookup
 * of a farmer by id that several pages share.  Dates and times
 * are kept as the strings the server sends; the model reads their time
 * order as their code-point order, which is what it is for ISO strings of
 * one fixed format.
 */
module Types {
  import opened Common

  /** One row of the fat-to-price table. */
  datatype FatRate = FatRate(fatPercentage: real, rate: real)

  /** A farmer.  `isActive` is None when the server omitted the flag. */
  datatype User = User(
    id: string,
    name: string,
    phoneNumber: string,
    address: string,
    isActive: Option<bool>,
    deactivatedAt: Option<string>,
    deactivationReason: Option<string>)

  /** One milk delivery.  A missing `isManuallyEdited` reads as false. */
  datatype Collection = Collection(
    id: string,
    userId: string,
    userName: string,
    date: string,
    time: string,
    liters: real,
    fatPercentage: real,
    rate: real,
    amount: real,
    isManuallyEdited: bool)

  /** A ledger entry: positive amounts are advances given, negative ones repayments. */
  datatype Advance = Advance(
    id: string,
    userId: string,
    userName: string,
    amount: real,
    date: string,
    description: string)

  /** The signed-in account; `role` is the text the server stored ("admin", "user" or "helper"). */
  datatype AuthUser = AuthUser(username: string, role: string)

  /** A helper account (collection-only staff). */
  datatype Helper = Helper(
    id: string,
    name: string,
    username: string,
    phoneNumber: string,
    isActive: bool)

  /** `users.find(u => u.id === id)`: the first farmer with that id. */
  function FindUser(users: seq<User>, id: string): (r: Option<User>)
    ensures r.None? <==> forall k :: 0 <= k < |users| ==> users[k].id != id
    ensures r.Some? ==> r.value in users && r.value.id == id
    ensures r.Some? ==> exists i :: 0 <= i < |users| && users[i] == r.value && forall k :: 0 <= k < i ==> users[k].id != id
  {
    if users == [] then None
    else if users[0].id == id then Some(users[0])
    else
      var r := FindUser(users[1..], id);
      assert forall k :: 1 <= k < |users| ==> users[k] == users[1..][k - 1];
      assert r.Some? ==> exists i :: 0 <= i < |users| && users[i] == r.value && forall k :: 0 <= k < i ==> users[k].id != id by {
        if r.Some? {
          var i :| 0 <= i < |users[1..]| && users[1..][i] == r.value && forall k :: 0 <= k < i ==> users[1..][k].id != id;
          assert users[i + 1] == r.value;
        }
      }
      r
  }
}
