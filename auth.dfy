/**
  * The credential store (auth.py): the salt-then-hash password format and its
  * verification, and the `users` table with register, login and Twitter-credential
  * update, each taking a connection from the pool and giving it back.
  *
  * PBKDF2-HMAC is an uninterpreted function passed in by the caller, and the 16 random
  * salt bytes of `os.urandom` are a parameter. The table is a map keyed by its primary
  * key, the username.
  */
module Auth {
  import opened Wrappers
  import opened Strings

  /** `os.urandom(16)`: the number of salt bytes. */
  const SaltBytes := 16
  /** The length of the salt's hex form, where the stored string is split. */
  const SaltHexLength := 32
  const HashName := "sha256"
  const Iterations := 100000

  /** `hashlib.pbkdf2_hmac(hash_name, password, salt, iterations)`, left uninterpreted. */
  type Kdf = (string, string, string, nat) -> seq<Byte>

  predicate IsHexDigit(c: char) {
    '0' <= c <= '9' || 'a' <= c <= 'f'
  }

  /** One lower-case hex digit. */
  function HexDigit(n: nat): (c: char)
    requires n < 16
    ensures IsHexDigit(c)
  {
    if n < 10 then ('0' as int + n) as char else ('a' as int + n - 10) as char
  }

  lemma HexDigitInjective(m: nat, n: nat)
    requires m < 16 && n < 16 && HexDigit(m) == HexDigit(n)
    ensures m == n
  {
  }

  /** The two digits of one byte, high nibble first. */
  function HexByte(b: Byte): string {
    [HexDigit(b as int / 16), HexDigit(b as int % 16)]
  }

  lemma HexByteInjective(x: Byte, y: Byte)
    requires HexByte(x) == HexByte(y)
    ensures x == y
  {
    HexDigitInjective(x as int / 16, y as int / 16);
    HexDigitInjective(x as int % 16, y as int % 16);
  }

  /** `bytes.hex()`: two lower-case hex digits per byte. */
  function Hex(bytes: seq<Byte>): (r: string)
    ensures |r| == 2 * |bytes|
    ensures forall i :: 0 <= i < |r| ==> IsHexDigit(r[i])
  {
    if bytes == [] then [] else HexByte(bytes[0]) + Hex(bytes[1..])
  }

  /** Different byte strings have different hex forms. */
  lemma {:induction false} HexInjective(a: seq<Byte>, b: seq<Byte>)
    requires Hex(a) == Hex(b)
    ensures a == b
  {
    if a != [] {
      assert |b| == |a|;
      assert HexByte(a[0]) == Hex(a)[..2] == HexByte(b[0]);
      HexByteInjective(a[0], b[0]);
      assert Hex(a[1..]) == Hex(a)[2..] == Hex(b[1..]);
      HexInjective(a[1..], b[1..]);
      assert a == [a[0]] + a[1..];
      assert b == [b[0]] + b[1..];
    }
  }

  /** hash_password: the salt's 32 hex digits followed by the hex of the derived key. */
  function HashPassword(password: string, salt: seq<Byte>, kdf: Kdf): (stored: string)
    requires |salt| == SaltBytes
  {
    var saltHex := Hex(salt);
    saltHex + Hex(kdf(HashName, password, saltHex, Iterations))
  }

  /** verify_password: split the stored string at 32, re-derive with the stored salt, compare. */
  function VerifyPassword(stored: string, provided: string, kdf: Kdf): bool {
    var salt := Take(stored, SaltHexLength);
    var storedHash := Drop(stored, SaltHexLength);
    Hex(kdf(HashName, provided, salt, Iterations)) == storedHash
  }

  /** The stored format: its first 32 characters are the salt's hex digits, the rest the
      derived key's, all lower-case hex. */
  lemma HashPasswordFormat(password: string, salt: seq<Byte>, kdf: Kdf)
    requires |salt| == SaltBytes
    ensures var stored := HashPassword(password, salt, kdf);
            |stored| >= SaltHexLength &&
            Take(stored, SaltHexLength) == Hex(salt) &&
            Drop(stored, SaltHexLength) == Hex(kdf(HashName, password, Hex(salt), Iterations)) &&
            forall i :: 0 <= i < |stored| ==> IsHexDigit(stored[i])
  {
    var stored := HashPassword(password, salt, kdf);
    assert stored[..SaltHexLength] == Hex(salt);
  }

  /** A freshly hashed password verifies: `verify_password(hash_password(p), p)`. */
  lemma HashThenVerify(password: string, salt: seq<Byte>, kdf: Kdf)
    requires |salt| == SaltBytes
    ensures VerifyPassword(HashPassword(password, salt, kdf), password, kdf)
  {
    HashPasswordFormat(password, salt, kdf);
  }

  /**
    * Another password verifies against a stored hash exactly when PBKDF2 derives the same
    * key for it with the same salt; whether that can happen is a property of PBKDF2,
    * which this model leaves uninterpreted.
    */
  lemma VerifyIffSameKey(password: string, provided: string, salt: seq<Byte>, kdf: Kdf)
    requires |salt| == SaltBytes
    ensures VerifyPassword(HashPassword(password, salt, kdf), provided, kdf) <==>
            kdf(HashName, provided, Hex(salt), Iterations) == kdf(HashName, password, Hex(salt), Iterations)
  {
    HashPasswordFormat(password, salt, kdf);
    var a := kdf(HashName, provided, Hex(salt), Iterations);
    var b := kdf(HashName, password, Hex(salt), Iterations);
    if Hex(a) == Hex(b) {
      HexInjective(a, b);
    }
  }

  // ---------------------------------------------------------------------------
  // The users table and the connection pool
  // ---------------------------------------------------------------------------

  /** A row of `users` besides its primary key: the stored password and the four
      nullable Twitter columns. */
  datatype UserRow = UserRow(
    password: string,
    twitterConsumerKey: Option<string>,
    twitterConsumerSecret: Option<string>,
    twitterAccessToken: Option<string>,
    twitterAccessSecret: Option<string>)

  /** `SimpleConnectionPool(minconn=1, maxconn=10)`. */
  const MaxConnections := 10

  /**
    * The database as the store sees it: the `users` table keyed by username and the
    * number of pooled connections currently checked out.
    *
    * `failure` parameters stand for a `psycopg2.Error` other than the duplicate-key
    * `IntegrityError` (a lost connection, say), which the source catches and reports.
    */
  class UserStore {
    var users: map<string, UserRow>
    var checkedOut: nat

    ghost predicate Valid()
      reads this
    {
      checkedOut <= MaxConnections
    }

    /** init_db on an existing database: `CREATE TABLE IF NOT EXISTS` keeps what is there. */
    constructor (existing: map<string, UserRow>)
      ensures Valid()
      ensures users == existing && checkedOut == 0
    {
      users := existing;
      checkedOut := 0;
    }

    method GetConn()
      requires Valid() && checkedOut < MaxConnections
      modifies this`checkedOut
      ensures Valid() && checkedOut == old(checkedOut) + 1
    {
      checkedOut := checkedOut + 1;
    }

    method PutConn()
      requires Valid() && checkedOut > 0
      modifies this`checkedOut
      ensures Valid() && checkedOut == old(checkedOut) - 1
    {
      checkedOut := checkedOut - 1;
    }

    /**
      * register_user: inserts (username, hash_password(password)) with null Twitter
      * columns; a username already present violates the primary key and yields false
      * with the table unchanged.
      */
    method RegisterUser(username: string, password: string, salt: seq<Byte>, kdf: Kdf, failure: bool)
      returns (ok: bool)
      requires Valid() && checkedOut < MaxConnections
      requires |salt| == SaltBytes
      modifies this
      ensures Valid() && checkedOut == old(checkedOut)
      ensures ok <==> username !in old(users) && !failure
      ensures ok ==> users == old(users)[username := UserRow(HashPassword(password, salt, kdf), None, None, None, None)]
      ensures !ok ==> users == old(users)
    {
      GetConn();
      if username in users {
        ok := false;
      } else if failure {
        ok := false;
      } else {
        users := users[username := UserRow(HashPassword(password, salt, kdf), None, None, None, None)];
        ok := true;
      }
      PutConn();
    }

    /** login_user: true exactly when a row exists and its stored password verifies; the
        table is only read. */
    method LoginUser(username: string, password: string, kdf: Kdf, failure: bool) returns (ok: bool)
      requires Valid() && checkedOut < MaxConnections
      modifies this`checkedOut
      ensures Valid() && checkedOut == old(checkedOut)
      ensures ok <==> !failure && username in users && VerifyPassword(users[username].password, password, kdf)
    {
      GetConn();
      if failure {
        ok := false;
      } else if username in users && VerifyPassword(users[username].password, password, kdf) {
        ok := true;
      } else {
        ok := false;
      }
      PutConn();
    }

    /**
      * update_twitter_credentials: sets the four Twitter columns of the user's row; the
      * password and every other row stay as they were, and an unknown username changes
      * nothing.
      */
    method UpdateTwitterCredentials(username: string, consumerKey: string, consumerSecret: string,
                                    accessToken: string, accessSecret: string, failure: bool)
      requires Valid() && checkedOut < MaxConnections
      modifies this
      ensures Valid() && checkedOut == old(checkedOut)
      ensures users.Keys == old(users).Keys
      ensures forall u :: u in users && u != username ==> users[u] == old(users)[u]
      ensures username in users ==> users[username].password == old(users)[username].password
      ensures username in users && !failure ==>
                users[username] == old(users)[username].(twitterConsumerKey := Some(consumerKey),
                                                         twitterConsumerSecret := Some(consumerSecret),
                                                         twitterAccessToken := Some(accessToken),
                                                         twitterAccessSecret := Some(accessSecret))
      ensures failure ==> users == old(users)
    {
      GetConn();
      if !failure && username in users {
        users := users[username := users[username].(twitterConsumerKey := Some(consumerKey),
                                                    twitterConsumerSecret := Some(consumerSecret),
                                                    twitterAccessToken := Some(accessToken),
                                                    twitterAccessSecret := Some(accessSecret))];
      }
      PutConn();
    }
  }

  /** Registering and then logging in with the same password succeeds. */
  method RegisterThenLogin(store: UserStore, username: string, password: string, salt: seq<Byte>, kdf: Kdf)
    returns (registered: bool, loggedIn: bool)
    requires store.Valid() && store.checkedOut < MaxConnections
    requires |salt| == SaltBytes
    modifies store
    ensures store.checkedOut == old(store.checkedOut)
    ensures registered <==> username !in old(store.users)
    ensures registered ==> loggedIn
  {
    registered := store.RegisterUser(username, password, salt, kdf, false);
    loggedIn := store.LoginUser(username, password, kdf, false);
    if registered {
      HashThenVerify(password, salt, kdf);
    }
  }
}
