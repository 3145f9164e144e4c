/**
 * The user_balances table: one row for a user and token, two nonnegative columns. Every write that
 * would make a column negative is refused by the table's CHECK constraint.
 */
module Ledger {
  import opened Sums

  type UserId = nat
  type TokenId = nat

  datatype Account = Account(user: UserId, token: TokenId)
  datatype Balance = Balance(available: nat, locked: nat)

  type Balances = map<Account, Balance>

  /** A missing row reads as two zeros. */
  function Read(b: Balances, a: Account): Balance {
    if a in b then b[a] else Balance(0, 0)
  }

  /** updateBalance: insert or overwrite; None when the CHECK constraint refuses the row. */
  function Write(b: Balances, a: Account, available: int, locked: int): Option<Balances> {
    if available < 0 || locked < 0 then None else Some(b[a := Balance(available, locked)])
  }

  /** lockBalance: a guarded in-place update that needs an existing row. */
  function Lock(b: Balances, a: Account, amount: nat): Option<Balances> {
    if a in b && b[a].available >= amount
    then Some(b[a := Balance(b[a].available - amount, b[a].locked + amount)])
    else None
  }

  function Unlock(b: Balances, a: Account, amount: nat): Option<Balances> {
    if a in b && b[a].locked >= amount
    then Some(b[a := Balance(b[a].available + amount, b[a].locked - amount)])
    else None
  }

  // ---- Posting a list of changes, one write after the other ----

  datatype Change = Change(account: Account, available: int, locked: int)
  datatype Posted = Posted(balances: Balances, ok: bool)

  /** Read, add and overwrite for each change in turn, up to the first write that is refused. */
  function Post(b: Balances, changes: seq<Change>): Posted
    decreases |changes|
  {
    if changes == [] then Posted(b, true)
    else
      var prior := Read(b, changes[0].account);
      match Write(b, changes[0].account, prior.available + changes[0].available, prior.locked + changes[0].locked)
      case None => Posted(b, false)
      case Some(b') => Post(b', changes[1..])
  }

  function NetAvailable(changes: seq<Change>, a: Account): int {
    if changes == [] then 0
    else (if changes[0].account == a then changes[0].available else 0) + NetAvailable(changes[1..], a)
  }

  function NetLocked(changes: seq<Change>, a: Account): int {
    if changes == [] then 0
    else (if changes[0].account == a then changes[0].locked else 0) + NetLocked(changes[1..], a)
  }

  function NetOfToken(changes: seq<Change>, t: TokenId): int {
    if changes == [] then 0
    else
      (if changes[0].account.token == t then changes[0].available + changes[0].locked else 0)
      + NetOfToken(changes[1..], t)
  }

  /** Posting adds the net change of every account, even when several changes meet in one account. */
  lemma {:induction false} PostAddsNet(b: Balances, changes: seq<Change>, a: Account)
    requires Post(b, changes).ok
    ensures Read(Post(b, changes).balances, a).available == Read(b, a).available + NetAvailable(changes, a)
    ensures Read(Post(b, changes).balances, a).locked == Read(b, a).locked + NetLocked(changes, a)
    ensures a in b ==> a in Post(b, changes).balances
    decreases |changes|
  {
    if changes != [] {
      var c := changes[0];
      var prior := Read(b, c.account);
      PostAddsNet(b[c.account := Balance(prior.available + c.available, prior.locked + c.locked)], changes[1..], a);
    }
  }

  predicate Refused(b: Balances, x: Change) {
    Read(b, x.account).available + x.available < 0 || Read(b, x.account).locked + x.locked < 0
  }

  /** The rows after one write that is not refused. */
  function Written(b: Balances, x: Change): Balances {
    var row := Read(b, x.account);
    b[x.account := Balance(Max(row.available + x.available, 0), Max(row.locked + x.locked, 0))]
  }

  lemma PostFirstWrite(b: Balances, x: Change, rest: seq<Change>)
    ensures Post(b, [x] + rest) == if Refused(b, x) then Posted(b, false) else Post(Written(b, x), rest)
  {
    assert ([x] + rest)[1..] == rest;
  }

  /** Four writes in turn, up to the first that is refused. */
  lemma PostsFour(b: Balances, x: Change, y: Change, z: Change, w: Change)
    ensures
      var b1 := Written(b, x);
      var b2 := Written(b1, y);
      var b3 := Written(b2, z);
      Post(b, [x, y, z, w]) == if Refused(b, x) then Posted(b, false)
                               else if Refused(b1, y) then Posted(b1, false)
                               else if Refused(b2, z) then Posted(b2, false)
                               else if Refused(b3, w) then Posted(b3, false) else Posted(Written(b3, w), true)
  {
    var b1 := Written(b, x);
    var b2 := Written(b1, y);
    var b3 := Written(b2, z);
    PostFirstWrite(b, x, [y, z, w]);
    PostFirstWrite(b1, y, [z, w]);
    PostFirstWrite(b2, z, [w]);
    PostFirstWrite(b3, w, []);
    assert [x] + [y, z, w] == [x, y, z, w] && [y] + [z, w] == [y, z, w] && [z] + [w] == [z, w] && [w] + [] == [w];
  }

  // ---- Supply: what all accounts of one token hold together ----

  function Holding(b: Balances, a: Account, t: TokenId): nat {
    if a.token == t then Read(b, a).available + Read(b, a).locked else 0
  }

  ghost function Supply(b: Balances, t: TokenId): nat {
    if b == map[] then 0
    else
      var a :| a in b;
      Holding(b, a, t) + Supply(b - {a}, t)
  }

  lemma {:induction false} SupplyWithout(b: Balances, t: TokenId, a: Account)
    requires a in b
    ensures Supply(b, t) == Holding(b, a, t) + Supply(b - {a}, t)
    decreases b
  {
    var c :| c in b && Supply(b, t) == Holding(b, c, t) + Supply(b - {c}, t);
    if c != a {
      SupplyWithout(b - {c}, t, a);
      SupplyWithout(b - {a}, t, c);
      assert b - {c} - {a} == b - {a} - {c};
      assert Holding(b - {c}, a, t) == Holding(b, a, t);
      assert Holding(b - {a}, c, t) == Holding(b, c, t);
    }
  }

  /** Overwriting one row moves the supply by exactly the difference between the new and the old row. */
  lemma SupplyAfterWrite(b: Balances, t: TokenId, a: Account, row: Balance)
    ensures Supply(b[a := row], t)
         == Supply(b, t) - Holding(b, a, t) + (if a.token == t then row.available + row.locked else 0)
  {
    SupplyWithout(b[a := row], t, a);
    if a in b {
      SupplyWithout(b, t, a);
      assert b[a := row] - {a} == b - {a};
    } else {
      assert b[a := row] - {a} == b;
    }
  }

  lemma {:induction false} PostMovesSupply(b: Balances, changes: seq<Change>, t: TokenId)
    requires Post(b, changes).ok
    ensures Supply(Post(b, changes).balances, t) == Supply(b, t) + NetOfToken(changes, t)
    decreases |changes|
  {
    if changes != [] {
      var c := changes[0];
      var prior := Read(b, c.account);
      var row := Balance(prior.available + c.available, prior.locked + c.locked);
      SupplyAfterWrite(b, t, c.account, row);
      PostMovesSupply(b[c.account := row], changes[1..], t);
    }
  }
}
