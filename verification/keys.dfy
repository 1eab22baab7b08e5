/** The server's table of issued access keys: each key maps to the
    integer second at which it expires. The table is held in process
    memory and consulted by the proxy's authorization subrequest. */
module Keys {

  /** A key is accepted when it was registered and `now` is strictly
      before the expiry recorded for it. */
  predicate KeyValid(table: map<string, int>, key: string, now: real) {
    key in table && now < table[key] as real
  }

  class KeyManager {
    var expiresAt: map<string, int>

    constructor ()
      ensures expiresAt == map[]
    {
      expiresAt := map[];
    }

    /** Inserts `key`, or overwrites the expiry it had. */
    method RegisterAccessKey(key: string, expiry: int)
      modifies this
      ensures expiresAt == old(expiresAt)[key := expiry]
      ensures forall now: real :: KeyValid(expiresAt, key, now) <==> now < expiry as real
      ensures forall other :: other != key ==>
                (other in expiresAt <==> other in old(expiresAt)) &&
                (other in expiresAt ==> expiresAt[other] == old(expiresAt)[other])
    {
      expiresAt := expiresAt[key := expiry];
    }

    /** Answers whether `key` is known and not yet expired at `now`;
        the table is only read. */
    method IsValidKey(key: string, now: real) returns (valid: bool)
      ensures valid <==> KeyValid(expiresAt, key, now)
      ensures key !in expiresAt ==> !valid
    {
      if key !in expiresAt {
        return false;
      }
      valid := now < expiresAt[key] as real;
    }
  }

  /** After registering `key` with expiry `expiry`, the key is valid at
      exactly the instants before `expiry`, whatever it held before. */
  lemma RegisteredValidIff(table: map<string, int>, key: string, expiry: int, now: real)
    ensures KeyValid(table[key := expiry], key, now) <==> now < expiry as real
  {
  }

  /** Registering a key a second time replaces the earlier expiry. */
  lemma ReRegisterOverwrites(table: map<string, int>, key: string, first: int, second: int)
    ensures table[key := first][key := second] == table[key := second]
  {
  }

  /** Registering one key leaves the verdict on every other key unchanged. */
  lemma RegisterFrame(table: map<string, int>, key: string, expiry: int, other: string, now: real)
    requires other != key
    ensures KeyValid(table[key := expiry], other, now) == KeyValid(table, other, now)
  {
  }
}
