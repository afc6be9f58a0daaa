/** The ids a session gives to the streams it opens. */
module StreamIds {
  import opened Wire
  import SessionModel

  const FIRST_SERVER_ID: u32 := 2
  const FIRST_CLIENT_ID: u32 := 1

  /** The id of the `n`-th stream opened, counting from zero. */
  function NthId(isServer: bool, n: nat): u32 {
    if n == 0 then (if isServer then FIRST_SERVER_ID else FIRST_CLIENT_ID)
    else SessionModel.NextId(NthId(isServer, n - 1))
  }

  /** After this many opens the ids repeat; a server skips the session id 0. */
  function Period(isServer: bool): nat {
    if isServer then 0x7FFF_FFFF else 0x8000_0000
  }

  lemma NextIs(id: u32)
    requires id > 0
    ensures SessionModel.NextId(id) == if id == 0xFFFF_FFFE then 2 else if id == 0xFFFF_FFFF then 1 else id + 2
  {
  }

  lemma NextServerResidue(n: nat)
    ensures (n + 1) % 0x7FFF_FFFF == if n % 0x7FFF_FFFF == 0x7FFF_FFFE then 0 else n % 0x7FFF_FFFF + 1
  {
    var q, r := n / 0x7FFF_FFFF, n % 0x7FFF_FFFF;
    assert n + 1 == 0x7FFF_FFFF * q + (r + 1);
  }

  lemma NextClientResidue(n: nat)
    ensures (n + 1) % 0x8000_0000 == if n % 0x8000_0000 == 0x7FFF_FFFF then 0 else n % 0x8000_0000 + 1
  {
    var q, r := n / 0x8000_0000, n % 0x8000_0000;
    assert n + 1 == 0x8000_0000 * q + (r + 1);
  }

  lemma {:induction false} ClosedForm(isServer: bool, n: nat)
    ensures NthId(isServer, n) == (if isServer then 2 else 1) + 2 * (n % Period(isServer))
  {
    if n == 0 {
    } else {
      ClosedForm(isServer, n - 1);
      if isServer {
        NextServerResidue(n - 1);
        NextIs(2 + 2 * ((n - 1) % Period(true)));
      } else {
        NextClientResidue(n - 1);
        NextIs(1 + 2 * ((n - 1) % Period(false)));
      }
    }
  }

  /** Ids keep the side's parity, are never the session's id, and two opens get the same id
      exactly when a whole number of periods lies between them. */
  lemma IdsAreDistinct(isServer: bool, m: nat, n: nat)
    ensures NthId(isServer, n) != 0 && NthId(isServer, n) % 2 == (if isServer then 0 else 1)
    ensures NthId(isServer, m) == NthId(isServer, n) <==> m % Period(isServer) == n % Period(isServer)
  {
    hide NthId;
    ClosedForm(isServer, m);
    ClosedForm(isServer, n);
  }

  /** In particular a session's ids are all different until it has opened a whole period, and
      never those of the other side. */
  lemma NoCollision(isServer: bool, m: nat, n: nat)
    ensures m < n < Period(isServer) ==> NthId(isServer, m) < NthId(isServer, n)
    ensures NthId(!isServer, m) != NthId(isServer, n)
  {
    hide NthId;
    ClosedForm(isServer, m);
    ClosedForm(isServer, n);
    if m < n < Period(isServer) {
      assert m % Period(isServer) == m && n % Period(isServer) == n;
    }
    IdsAreDistinct(!isServer, m, m);
    IdsAreDistinct(isServer, n, n);
  }
}
