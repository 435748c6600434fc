/** The account and interaction store of auth.py: salted password digests,
    registration, login, password change, profile reads, the per-user chat
    history and feedback lists, account deletion and per-user statistics. */
module Auth {
  import opened Wrappers
  import opened Text

  // ---------------------------------------------------------------------------
  // Salted digests
  // ---------------------------------------------------------------------------

  type byte = b: int | 0 <= b < 256

  /** SHA-256 of the UTF-8 encoding of a string. The store receives it as a
      parameter; nothing here depends on how it is computed. */
  type Sha256 = string -> seq<byte>

  /** `secrets.token_hex(16)` draws sixteen random bytes. */
  const SaltLength := 16

  type Salt = s: seq<byte> | |s| == SaltLength witness seq(SaltLength, i => 0)

  const HexDigits := "0123456789abcdef"

  /** `bytes.hex()` / `hexdigest()`: two lower-case hex digits per byte. */
  function Hex(bytes: seq<byte>): (h: string)
    ensures |h| == 2 * |bytes|
    ensures forall i :: 0 <= i < |h| ==> h[i] in HexDigits
  {
    if bytes == [] then ""
    else [HexDigits[bytes[0] / 16], HexDigits[bytes[0] % 16]] + Hex(bytes[1..])
  }

  /** Byte `i` becomes the digits at `2 * i` (high nibble) and `2 * i + 1`
      (low nibble). */
  lemma {:induction false} HexDigitsAt(bytes: seq<byte>)
    ensures forall i :: 0 <= i < |bytes| ==>
      Hex(bytes)[2 * i] == HexDigits[bytes[i] / 16] && Hex(bytes)[2 * i + 1] == HexDigits[bytes[i] % 16]
  {
    if bytes != [] {
      HexDigitsAt(bytes[1..]);
      var rest := Hex(bytes[1..]);
      var h := Hex(bytes);
      assert h == [HexDigits[bytes[0] / 16], HexDigits[bytes[0] % 16]] + rest;
      forall i | 1 <= i < |bytes|
        ensures h[2 * i] == HexDigits[bytes[i] / 16] && h[2 * i + 1] == HexDigits[bytes[i] % 16]
      {
        assert bytes[i] == bytes[1..][i - 1];
        assert h[2 * i] == rest[2 * (i - 1)] && h[2 * i + 1] == rest[2 * (i - 1) + 1];
      }
    }
  }

  /** The sixteen digits are distinct. */
  lemma HexDigitsDistinct(a: int, b: int)
    requires 0 <= a < 16 && 0 <= b < 16 && HexDigits[a] == HexDigits[b]
    ensures a == b
  {
  }

  /** Different byte strings have different hex forms. */
  lemma HexInjective(a: seq<byte>, b: seq<byte>)
    requires Hex(a) == Hex(b)
    ensures a == b
  {
    HexDigitsAt(a);
    HexDigitsAt(b);
    forall i | 0 <= i < |a| ensures a[i] == b[i] {
      HexDigitsDistinct(a[i] / 16, b[i] / 16);
      HexDigitsDistinct(a[i] % 16, b[i] % 16);
    }
  }

  lemma HexHasNoDollar(bytes: seq<byte>)
    ensures '$' !in Hex(bytes)
  {
    var h := Hex(bytes);
    assert forall i :: 0 <= i < |h| ==> h[i] != '$';
  }

  /** `_hash_password`: the hex salt, a `$`, and the hex SHA-256 of the
      password followed by the hex salt. */
  function HashPassword(sha256: Sha256, password: string, salt: Salt): (stored: string)
    ensures Split(stored, '$') == [Hex(salt), Hex(sha256(password + Hex(salt)))]
    ensures Count(stored, '$') == 1
    ensures |stored| == 2 * SaltLength + 1 + 2 * |sha256(password + Hex(salt))|
  {
    var saltHex := Hex(salt);
    var digestHex := Hex(sha256(password + saltHex));
    HexHasNoDollar(salt);
    HexHasNoDollar(sha256(password + saltHex));
    assert Join([saltHex, digestHex], '$') == saltHex + "$" + digestHex by {
      assert [saltHex, digestHex][1..] == [digestHex];
    }
    SplitJoin([saltHex, digestHex], '$');
    saltHex + "$" + digestHex
  }

  /** `_verify_password`: split the stored string at `$`; anything other than
      exactly two pieces is a failure (the source's `except: return False`),
      otherwise recompute the digest with the stored salt and compare. */
  function VerifyPassword(sha256: Sha256, password: string, stored: string): (ok: bool)
    ensures ok ==> Count(stored, '$') == 1
  {
    var parts := Split(stored, '$');
    |parts| == 2 && Hex(sha256(password + parts[0])) == parts[1]
  }

  /** A password always verifies against a digest made from it, whatever the salt. */
  lemma VerifyHashedPassword(sha256: Sha256, password: string, salt: Salt)
    ensures VerifyPassword(sha256, password, HashPassword(sha256, password, salt))
  {
    var stored := HashPassword(sha256, password, salt);
    assert Split(stored, '$')[0] == Hex(salt);
  }

  /** Against a digest made from password `q`, password `p` verifies exactly
      when SHA-256 gives the two the same digest under that salt. */
  lemma VerifyAgainstHashed(sha256: Sha256, p: string, q: string, salt: Salt)
    ensures VerifyPassword(sha256, p, HashPassword(sha256, q, salt)) <==>
      sha256(p + Hex(salt)) == sha256(q + Hex(salt))
  {
    var stored := HashPassword(sha256, q, salt);
    assert Split(stored, '$')[0] == Hex(salt);
    if VerifyPassword(sha256, p, stored) {
      HexInjective(sha256(p + Hex(salt)), sha256(q + Hex(salt)));
    }
  }

  /** With a collision-free digest, a wrong password is always rejected. */
  lemma WrongPasswordFails(sha256: Sha256, p: string, q: string, salt: Salt)
    requires forall x, y :: sha256(x) == sha256(y) ==> x == y
    requires p != q
    ensures !VerifyPassword(sha256, p, HashPassword(sha256, q, salt))
  {
    VerifyAgainstHashed(sha256, p, q, salt);
    if sha256(p + Hex(salt)) == sha256(q + Hex(salt)) {
      AppendCancel(p, q, Hex(salt));
    }
  }

  lemma AppendCancel(p: string, q: string, h: string)
    requires p + h == q + h
    ensures p == q
  {
    assert p == (p + h)[..|p|];
  }

  /** A stored string with no `$`, or with more than one, never verifies. */
  lemma MalformedDigestRejected(sha256: Sha256, password: string, stored: string)
    requires Count(stored, '$') != 1
    ensures !VerifyPassword(sha256, password, stored)
  {
  }

  // ---------------------------------------------------------------------------
  // Records
  // ---------------------------------------------------------------------------

  /** One value of the `users` dictionary. */
  datatype User = User(email: string, name: string, password: string, createdAt: string, lastLogin: string)

  /** What `get_user_info` returns: a copy of the record without `"password"`. */
  datatype Profile = Profile(email: string, name: string, createdAt: string, lastLogin: string)

  function ProfileOf(u: User): (p: Profile)
    ensures p.email == u.email && p.name == u.name
    ensures p.createdAt == u.createdAt && p.lastLogin == u.lastLogin
  {
    Profile(u.email, u.name, u.createdAt, u.lastLogin)
  }

  /** One feedback entry, as the feedback buttons build it (app.py:681-686). */
  datatype FeedbackEntry = FeedbackEntry(responseId: string, feedback: string, timestamp: string, userEmail: string)

  /** The contents of one JSON file as `_load_*` finds it: absent, not
      parsable as JSON, or a parsed dictionary. */
  datatype Stored<T> = Missing | Unparsable | Loaded(data: T)

  /** A missing or unparsable file loads as an empty dictionary. */
  function LoadOrEmpty<T>(f: Stored<map<string, T>>): (m: map<string, T>)
    ensures f.Loaded? ==> m == f.data
    ensures !f.Loaded? ==> m == map[]
  {
    if f.Loaded? then f.data else map[]
  }

  ghost predicate Distinct(s: seq<string>) {
    forall i, j :: 0 <= i < j < |s| ==> s[i] != s[j]
  }

  /** `order` lists the keys of `users` in the dictionary's insertion order. */
  ghost predicate Ordered(users: map<string, User>, order: seq<string>) {
    Distinct(order) && forall e :: e in users <==> e in order
  }

  /** Some pair of `pairs` has key `e`. */
  ghost predicate Occurs(pairs: seq<(string, User)>, e: string) {
    exists i :: 0 <= i < |pairs| && pairs[i].0 == e
  }

  /** Building a dictionary from the key/value pairs of a JSON object, in file
      order: a repeated key keeps its first position and its last value. */
  function IndexUsers(pairs: seq<(string, User)>): (t: (map<string, User>, seq<string>))
    ensures Ordered(t.0, t.1)
    ensures forall e :: e in t.0 <==> Occurs(pairs, e)
  {
    if pairs == [] then (map[], [])
    else
      var prefix := pairs[..|pairs| - 1];
      var (m, o) := IndexUsers(prefix);
      var (k, v) := pairs[|pairs| - 1];
      assert forall i :: 0 <= i < |prefix| ==> prefix[i] == pairs[i];
      (m[k := v], if k in m then o else o + [k])
  }

  /** The position of the first pair with key `e`. */
  ghost function FirstAt(pairs: seq<(string, User)>, e: string): (i: nat)
    requires Occurs(pairs, e)
    ensures i < |pairs| && pairs[i].0 == e
    ensures forall j :: 0 <= j < i ==> pairs[j].0 != e
  {
    if pairs[0].0 == e then 0
    else
      OccursTail(pairs, e);
      1 + FirstAt(pairs[1..], e)
  }

  /** Proof helper for FirstAt: a key that occurs but not first occurs in the tail. */
  lemma OccursTail(pairs: seq<(string, User)>, e: string)
    requires Occurs(pairs, e) && pairs[0].0 != e
    ensures Occurs(pairs[1..], e)
  {
    var i :| 0 <= i < |pairs| && pairs[i].0 == e;
    assert pairs[1..][i - 1].0 == e;
  }

  /** Proof helper for LastAt: a key that occurs but not last occurs in the prefix. */
  lemma OccursPrefix(pairs: seq<(string, User)>, e: string)
    requires Occurs(pairs, e) && pairs[|pairs| - 1].0 != e
    ensures Occurs(pairs[..|pairs| - 1], e)
  {
    var i :| 0 <= i < |pairs| && pairs[i].0 == e;
    assert pairs[..|pairs| - 1][i].0 == e;
  }

  /** The position of the last pair with key `e`. */
  ghost function LastAt(pairs: seq<(string, User)>, e: string): (i: nat)
    requires Occurs(pairs, e)
    ensures i < |pairs| && pairs[i].0 == e
    ensures forall j :: i < j < |pairs| ==> pairs[j].0 != e
  {
    if pairs[|pairs| - 1].0 == e then |pairs| - 1
    else
      OccursPrefix(pairs, e);
      var i := LastAt(pairs[..|pairs| - 1], e);
      assert forall j :: i < j < |pairs| - 1 ==> pairs[..|pairs| - 1][j] == pairs[j];
      i
  }

  /** Appending a pair does not move an earlier first occurrence. */
  lemma FirstAtAppend(pairs: seq<(string, User)>, p: (string, User), e: string)
    requires Occurs(pairs, e)
    ensures Occurs(pairs + [p], e) && FirstAt(pairs + [p], e) == FirstAt(pairs, e)
  {
    var i := FirstAt(pairs, e);
    var longer := pairs + [p];
    assert longer[i] == pairs[i];
    assert forall j :: 0 <= j < |pairs| ==> longer[j] == pairs[j];
  }

  /** Every loaded key holds the value of the last pair with that key. */
  lemma {:induction false} IndexUsersValues(pairs: seq<(string, User)>, e: string)
    requires e in IndexUsers(pairs).0
    ensures Occurs(pairs, e) && IndexUsers(pairs).0[e] == pairs[LastAt(pairs, e)].1
  {
    var n := |pairs|;
    var prefix := pairs[..n - 1];
    var m := IndexUsers(prefix).0;
    assert IndexUsers(pairs).0 == m[pairs[n - 1].0 := pairs[n - 1].1];
    if pairs[n - 1].0 != e {
      IndexUsersValues(prefix, e);
      assert LastAt(pairs, e) == LastAt(prefix, e);
      assert prefix[LastAt(prefix, e)] == pairs[LastAt(prefix, e)];
    }
  }

  /** Every key of `o` occurs in `pairs`, and `o` lists the keys by the
      position of their first pair. */
  ghost predicate ByFirstOccurrence(pairs: seq<(string, User)>, o: seq<string>) {
    && (forall a :: 0 <= a < |o| ==> Occurs(pairs, o[a]))
    && (forall a, b :: 0 <= a < b < |o| ==> FirstAt(pairs, o[a]) < FirstAt(pairs, o[b]))
  }

  /** A later pair does not disturb the order of the keys seen so far. */
  lemma ByFirstOccurrenceKeep(prefix: seq<(string, User)>, p: (string, User), o: seq<string>)
    requires ByFirstOccurrence(prefix, o)
    ensures ByFirstOccurrence(prefix + [p], o)
  {
    forall a | 0 <= a < |o| ensures Occurs(prefix + [p], o[a]) && FirstAt(prefix + [p], o[a]) == FirstAt(prefix, o[a]) {
      FirstAtAppend(prefix, p, o[a]);
    }
  }

  /** A pair with a new key puts that key last. */
  lemma ByFirstOccurrenceNew(prefix: seq<(string, User)>, p: (string, User), o: seq<string>)
    requires ByFirstOccurrence(prefix, o) && !Occurs(prefix, p.0)
    ensures ByFirstOccurrence(prefix + [p], o + [p.0])
  {
    ByFirstOccurrenceKeep(prefix, p, o);
    var q, o2 := prefix + [p], o + [p.0];
    assert q[|prefix|] == p;
    assert FirstAt(q, p.0) == |prefix| by {
      assert forall j :: 0 <= j < |prefix| ==> q[j] == prefix[j];
    }
    forall a | 0 <= a < |o2| ensures Occurs(q, o2[a]) {
      if a < |o| {
        assert o2[a] == o[a];
      }
    }
    forall a, b | 0 <= a < b < |o2| ensures FirstAt(q, o2[a]) < FirstAt(q, o2[b]) {
      assert o2[a] == o[a];
      if b < |o| {
        assert o2[b] == o[b];
      }
    }
  }

  /** The insertion order lists the keys by their first occurrence in the file. */
  lemma {:induction false} IndexUsersOrder(pairs: seq<(string, User)>)
    ensures ByFirstOccurrence(pairs, IndexUsers(pairs).1)
  {
    if pairs != [] {
      var n := |pairs|;
      var prefix := pairs[..n - 1];
      var last := pairs[n - 1];
      assert pairs == prefix + [last];
      IndexUsersOrder(prefix);
      var (m, o') := IndexUsers(prefix);
      if last.0 in m {
        ByFirstOccurrenceKeep(prefix, last, o');
      } else {
        ByFirstOccurrenceNew(prefix, last, o');
      }
    }
  }

  /** `order` with `e` taken out; the other keys keep their order. */
  function Erase(order: seq<string>, e: string): (r: seq<string>)
    ensures forall x :: x in r <==> x in order && x != e
  {
    if order == [] then []
    else (if order[0] == e then [] else [order[0]]) + Erase(order[1..], e)
  }

  /** Erasing keeps a list free of duplicates. */
  lemma {:induction false} EraseKeepsDistinct(order: seq<string>, e: string)
    requires Distinct(order)
    ensures Distinct(Erase(order, e))
  {
    if order != [] {
      var rest := Erase(order[1..], e);
      assert Distinct(order[1..]) by {
        forall i, j | 0 <= i < j < |order| - 1 ensures order[1..][i] != order[1..][j] {
          assert order[1..][i] == order[i + 1] && order[1..][j] == order[j + 1];
        }
      }
      EraseKeepsDistinct(order[1..], e);
      if order[0] != e {
        assert order[0] !in order[1..] by {
          forall j | 0 <= j < |order| - 1 ensures order[1..][j] != order[0] {
            assert order[1..][j] == order[j + 1];
          }
        }
        var r := [order[0]] + rest;
        forall i, j | 0 <= i < j < |r| ensures r[i] != r[j] {
          if i > 0 {
            assert r[i] == rest[i - 1] && r[j] == rest[j - 1];
          } else {
            assert r[j] == rest[j - 1] && r[j] in rest;
          }
        }
      } else {
        assert Erase(order, e) == rest;
      }
    }
  }

  /** Erasing distributes over concatenation, so the kept keys stay in their
      relative order. */
  lemma {:induction false} EraseConcat(a: seq<string>, b: seq<string>, e: string)
    ensures Erase(a + b, e) == Erase(a, e) + Erase(b, e)
  {
    if a == [] {
      assert a + b == b;
    } else {
      var ab := a + b;
      assert ab[0] == a[0] && ab[1..] == a[1..] + b;
      var head := if a[0] == e then [] else [a[0]];
      var ta := Erase(a[1..], e);
      var tb := Erase(b, e);
      EraseConcat(a[1..], b, e);
      calc {
        Erase(ab, e);
        head + Erase(a[1..] + b, e);
        head + (ta + tb);
        (head + ta) + tb;
        Erase(a, e) + tb;
      }
    }
  }

  /** Erasing a key that is not there changes nothing. */
  lemma {:induction false} EraseAbsent(order: seq<string>, e: string)
    requires e !in order
    ensures Erase(order, e) == order
  {
    if order != [] {
      EraseAbsent(order[1..], e);
      assert [order[0]] + order[1..] == order;
    }
  }

  // ---------------------------------------------------------------------------
  // Validation outcomes, in the order the source checks them
  // ---------------------------------------------------------------------------

  const MinPasswordLength := 6

  datatype RegisterError = MissingField | InvalidEmail | ShortPassword | AlreadyExists {
    function Message(): string {
      match this
      case MissingField => "Email, name, and password are required"
      case InvalidEmail => "Please enter a valid email address"
      case ShortPassword => "Password must be at least 6 characters long"
      case AlreadyExists => "User already exists"
    }
  }

  /** The first check of `register_user` that fails, if any. */
  function RegistrationCheck(email: string, name: string, password: string, registered: bool): (e: Option<RegisterError>)
    ensures e == Some(MissingField) <==> email == [] || name == [] || password == []
    ensures e == Some(InvalidEmail) <==> email != [] && name != [] && password != [] && ('@' !in email || '.' !in email)
    ensures e == Some(ShortPassword) <==> email != [] && name != [] && '@' in email && '.' in email && 0 < |password| < MinPasswordLength
    ensures e == Some(AlreadyExists) <==> name != [] && '@' in email && '.' in email && |password| >= MinPasswordLength && registered
    ensures e == None <==> name != [] && '@' in email && '.' in email && |password| >= MinPasswordLength && !registered
  {
    if email == [] || name == [] || password == [] then Some(MissingField)
    else if '@' !in email || '.' !in email then Some(InvalidEmail)
    else if |password| < MinPasswordLength then Some(ShortPassword)
    else if registered then Some(AlreadyExists)
    else None
  }

  datatype LoginError = MissingCredentials | InvalidCredentials {
    function Message(): string {
      match this
      case MissingCredentials => "Email and password are required"
      case InvalidCredentials => "Invalid email or password"
    }
  }

  /** The first check of `login_user` that fails, if any. An unknown email and
      a wrong password give the same error. */
  function LoginCheck(sha256: Sha256, users: map<string, User>, email: string, password: string): (e: Option<LoginError>)
    ensures e == Some(MissingCredentials) <==> email == [] || password == []
    ensures e == Some(InvalidCredentials) <==>
      email != [] && password != [] && (email !in users || !VerifyPassword(sha256, password, users[email].password))
    ensures e == None <==>
      email != [] && password != [] && email in users && VerifyPassword(sha256, password, users[email].password)
  {
    if email == [] || password == [] then Some(MissingCredentials)
    else if email !in users then Some(InvalidCredentials)
    else if !VerifyPassword(sha256, password, users[email].password) then Some(InvalidCredentials)
    else None
  }

  datatype PasswordChangeError = UserNotFound | IncorrectPassword | ShortNewPassword {
    function Message(): string {
      match this
      case UserNotFound => "User not found"
      case IncorrectPassword => "Current password is incorrect"
      case ShortNewPassword => "New password must be at least 6 characters long"
    }
  }

  /** The first check of `change_password` that fails, if any: the current
      password is checked before the new one's length. */
  function PasswordChangeCheck(sha256: Sha256, users: map<string, User>, email: string, current: string, newPassword: string): (e: Option<PasswordChangeError>)
    ensures e == Some(UserNotFound) <==> email !in users
    ensures e == Some(IncorrectPassword) <==> email in users && !VerifyPassword(sha256, current, users[email].password)
    ensures e == Some(ShortNewPassword) <==>
      email in users && VerifyPassword(sha256, current, users[email].password) && |newPassword| < MinPasswordLength
    ensures e == None <==>
      email in users && VerifyPassword(sha256, current, users[email].password) && |newPassword| >= MinPasswordLength
  {
    if email !in users then Some(UserNotFound)
    else if !VerifyPassword(sha256, current, users[email].password) then Some(IncorrectPassword)
    else if |newPassword| < MinPasswordLength then Some(ShortNewPassword)
    else None
  }

  // ---------------------------------------------------------------------------
  // Feedback lists
  // ---------------------------------------------------------------------------

  /** `[f for f in entries if f.get("response_id") != responseId]`. */
  function Without(entries: seq<FeedbackEntry>, responseId: string): (r: seq<FeedbackEntry>)
    ensures |r| <= |entries|
    ensures forall i :: 0 <= i < |r| ==> r[i].responseId != responseId
  {
    if entries == [] then []
    else (if entries[0].responseId == responseId then [] else [entries[0]]) + Without(entries[1..], responseId)
  }

  /** The filter keeps exactly the entries about other responses. */
  lemma {:induction false} WithoutMembers(entries: seq<FeedbackEntry>, responseId: string)
    ensures forall e :: e in Without(entries, responseId) <==> e in entries && e.responseId != responseId
  {
    if entries != [] {
      WithoutMembers(entries[1..], responseId);
      assert entries == [entries[0]] + entries[1..];
    }
  }

  /** The list `save_user_feedback` stores: the old entries for other responses,
      in their order, then the new entry. */
  function Upsert(entries: seq<FeedbackEntry>, f: FeedbackEntry): (r: seq<FeedbackEntry>)
    ensures |r| >= 1 && r[|r| - 1] == f
    ensures forall i :: 0 <= i < |r| - 1 ==> r[i].responseId != f.responseId
    ensures forall e :: e in r ==> e == f || e in entries
    ensures |r| <= |entries| + 1
  {
    WithoutMembers(entries, f.responseId);
    Without(entries, f.responseId) + [f]
  }

  lemma {:induction false} WithoutConcat(a: seq<FeedbackEntry>, b: seq<FeedbackEntry>, responseId: string)
    ensures Without(a + b, responseId) == Without(a, responseId) + Without(b, responseId)
  {
    if a == [] {
      assert a + b == b;
    } else {
      var ab := a + b;
      assert ab[0] == a[0] && ab[1..] == a[1..] + b;
      var head := if a[0].responseId == responseId then [] else [a[0]];
      var ta := Without(a[1..], responseId);
      var tb := Without(b, responseId);
      WithoutConcat(a[1..], b, responseId);
      calc {
        Without(ab, responseId);
        head + Without(a[1..] + b, responseId);
        head + (ta + tb);
        (head + ta) + tb;
        Without(a, responseId) + tb;
      }
    }
  }

  lemma {:induction false} WithoutNothingToDrop(entries: seq<FeedbackEntry>, responseId: string)
    requires forall i :: 0 <= i < |entries| ==> entries[i].responseId != responseId
    ensures Without(entries, responseId) == entries
  {
    if entries != [] {
      WithoutNothingToDrop(entries[1..], responseId);
    }
  }

  /** Upserting leaves the entries about other responses exactly as they were,
      in the same order. */
  lemma UpsertKeepsOthers(entries: seq<FeedbackEntry>, f: FeedbackEntry)
    ensures Without(Upsert(entries, f), f.responseId) == Without(entries, f.responseId)
  {
    var w := Without(entries, f.responseId);
    WithoutConcat(w, [f], f.responseId);
    WithoutNothingToDrop(w, f.responseId);
    assert Without([f], f.responseId) == [];
  }

  /** A second submission for the same response replaces the first: only the
      latest entry remains. With `g == f` this is idempotence. */
  lemma UpsertReplaces(entries: seq<FeedbackEntry>, f: FeedbackEntry, g: FeedbackEntry)
    requires f.responseId == g.responseId
    ensures Upsert(Upsert(entries, f), g) == Upsert(entries, g)
  {
    UpsertKeepsOthers(entries, f);
  }

  /** At most one entry per response id. */
  ghost predicate OnePerResponse(entries: seq<FeedbackEntry>) {
    forall i, j :: 0 <= i < j < |entries| ==> entries[i].responseId != entries[j].responseId
  }

  lemma {:induction false} WithoutKeepsOnePerResponse(entries: seq<FeedbackEntry>, responseId: string)
    requires OnePerResponse(entries)
    ensures OnePerResponse(Without(entries, responseId))
  {
    if entries != [] {
      var t := entries[1..];
      assert OnePerResponse(t) by {
        forall i, j | 0 <= i < j < |t| ensures t[i].responseId != t[j].responseId {
          assert t[i] == entries[i + 1] && t[j] == entries[j + 1];
        }
      }
      WithoutKeepsOnePerResponse(t, responseId);
      var wt := Without(t, responseId);
      WithoutMembers(t, responseId);
      if entries[0].responseId != responseId {
        forall j | 0 <= j < |wt| ensures wt[j].responseId != entries[0].responseId {
          assert wt[j] in wt;
          var k :| 0 <= k < |t| && t[k] == wt[j];
          assert t[k] == entries[k + 1];
        }
        var r := [entries[0]] + wt;
        forall i, j | 0 <= i < j < |r| ensures r[i].responseId != r[j].responseId {
          if i > 0 {
            assert r[i] == wt[i - 1] && r[j] == wt[j - 1];
          } else {
            assert r[j] == wt[j - 1];
          }
        }
      }
    }
  }

  /** Upserting keeps the one-entry-per-response invariant of a feedback list. */
  lemma UpsertKeepsOnePerResponse(entries: seq<FeedbackEntry>, f: FeedbackEntry)
    requires OnePerResponse(entries)
    ensures OnePerResponse(Upsert(entries, f))
  {
    WithoutKeepsOnePerResponse(entries, f.responseId);
  }

  /** No entry before index `i` is about `responseId`. */
  ghost predicate FirstFor(entries: seq<FeedbackEntry>, i: int, responseId: string)
    requires 0 <= i <= |entries|
  {
    forall k :: 0 <= k < i ==> entries[k].responseId != responseId
  }

  /** `next((f for f in entries if f.get("response_id") == responseId), None)`:
      the first entry for the response. */
  function FindFeedback(entries: seq<FeedbackEntry>, responseId: string): (r: Option<FeedbackEntry>)
    ensures r.None? <==> forall i :: 0 <= i < |entries| ==> entries[i].responseId != responseId
    ensures r.Some? ==> r.value.responseId == responseId
    ensures r.Some? ==> exists i :: 0 <= i < |entries| && entries[i] == r.value && FirstFor(entries, i, responseId)
  {
    if entries == [] then None
    else if entries[0].responseId == responseId then Some(entries[0])
    else
      var r := FindFeedback(entries[1..], responseId);
      assert r.Some? ==> exists i :: 0 <= i < |entries| && entries[i] == r.value && FirstFor(entries, i, responseId) by {
        if r.Some? {
          var i :| 0 <= i < |entries| - 1 && entries[1..][i] == r.value && FirstFor(entries[1..], i, responseId);
          assert entries[i + 1] == r.value;
          assert forall k :: 1 <= k < i + 1 ==> entries[k] == entries[1..][k - 1];
        }
      }
      r
  }

  lemma {:induction false} FindInConcat(a: seq<FeedbackEntry>, b: seq<FeedbackEntry>, responseId: string)
    ensures FindFeedback(a + b, responseId) ==
      if FindFeedback(a, responseId).Some? then FindFeedback(a, responseId) else FindFeedback(b, responseId)
  {
    if a == [] {
      assert a + b == b;
    } else {
      assert (a + b)[0] == a[0];
      assert (a + b)[1..] == a[1..] + b;
      FindInConcat(a[1..], b, responseId);
    }
  }

  lemma {:induction false} FindInWithout(entries: seq<FeedbackEntry>, dropped: string, responseId: string)
    requires dropped != responseId
    ensures FindFeedback(Without(entries, dropped), responseId) == FindFeedback(entries, responseId)
  {
    if entries != [] {
      var head := if entries[0].responseId == dropped then [] else [entries[0]];
      FindInConcat(head, Without(entries[1..], dropped), responseId);
      FindInWithout(entries[1..], dropped, responseId);
    }
  }

  /** After an upsert, looking up its response finds the new entry, and looking
      up any other response finds what it found before. */
  lemma UpsertThenFind(entries: seq<FeedbackEntry>, f: FeedbackEntry, responseId: string)
    ensures FindFeedback(Upsert(entries, f), responseId) ==
      if responseId == f.responseId then Some(f) else FindFeedback(entries, responseId)
  {
    FindInConcat(Without(entries, f.responseId), [f], responseId);
    if responseId != f.responseId {
      FindInWithout(entries, f.responseId, responseId);
    }
  }

  // ---------------------------------------------------------------------------
  // Statistics
  // ---------------------------------------------------------------------------

  /** `len([f for f in entries if f.get("feedback") == rating])`. */
  function CountRating(entries: seq<FeedbackEntry>, rating: string): (n: nat)
    ensures n <= |entries|
    ensures n == 0 <==> forall i :: 0 <= i < |entries| ==> entries[i].feedback != rating
    ensures n == |entries| <==> forall i :: 0 <= i < |entries| ==> entries[i].feedback == rating
  {
    if entries == [] then 0
    else
      assert forall i :: 1 <= i < |entries| ==> entries[i] == entries[1..][i - 1];
      (if entries[0].feedback == rating then 1 else 0) + CountRating(entries[1..], rating)
  }

  /** Counting a concatenation adds the counts of its parts. */
  lemma {:induction false} CountRatingConcat(a: seq<FeedbackEntry>, b: seq<FeedbackEntry>, rating: string)
    ensures CountRating(a + b, rating) == CountRating(a, rating) + CountRating(b, rating)
  {
    if a != [] {
      CountRatingConcat(a[1..], b, rating);
      var ab := a + b;
      assert ab[0] == a[0] && ab[1..] == a[1..] + b;
      assert CountRating(ab, rating) == (if a[0].feedback == rating then 1 else 0) + CountRating(a[1..] + b, rating);
    } else {
      assert a + b == b;
    }
  }

  /** Positive and negative entries together never exceed the total; they make
      it up exactly when every entry is one of the two. */
  lemma {:induction false} RatingsBounded(entries: seq<FeedbackEntry>)
    ensures CountRating(entries, "positive") + CountRating(entries, "negative") <= |entries|
    ensures CountRating(entries, "positive") + CountRating(entries, "negative") == |entries| <==>
      forall i :: 0 <= i < |entries| ==> entries[i].feedback in {"positive", "negative"}
  {
    if entries != [] {
      assert "positive"[0] != "negative"[0];
      RatingsBounded(entries[1..]);
      assert forall i :: 1 <= i < |entries| ==> entries[i] == entries[1..][i - 1];
    }
  }

  /** A percentage kept as the exact ratio `numerator / denominator`. */
  datatype Percentage = Percentage(numerator: nat, denominator: nat) {
    /** The ratio is the whole number `p`. */
    predicate Is(p: nat) {
      numerator == p * denominator
    }
  }

  /** `(positive / total * 100) if total > 0 else 0`, without rounding. */
  function SatisfactionRate(positive: nat, total: nat): (rate: Percentage)
    ensures rate.denominator > 0
    ensures total == 0 ==> rate.Is(0)
    ensures total > 0 ==> rate.numerator * total == 100 * positive * rate.denominator
    ensures positive <= total ==> rate.numerator <= 100 * rate.denominator
  {
    if total > 0 then Percentage(100 * positive, total) else Percentage(0, 1)
  }

  /** Three positive entries out of four make 75 per cent. */
  lemma SatisfactionSeventyFive()
    ensures SatisfactionRate(3, 4).Is(75)
  {
  }

  /** What `get_user_stats` returns for a registered user. */
  datatype Stats = Stats(
    totalChats: nat,
    totalFeedback: nat,
    positiveFeedback: nat,
    negativeFeedback: nat,
    satisfactionRate: Percentage,
    userInfo: Profile)

  // ---------------------------------------------------------------------------
  // The store
  // ---------------------------------------------------------------------------

  /** `UserAuth`, over history entries of any type `H` (the store never
      looks inside them). The three dictionaries stand for the three JSON
      files; each mutating method replaces a whole dictionary, as each
      `_save_*` rewrites a whole file. */
  class UserAuth<H> {
    const sha256: Sha256
    var users: map<string, User>
    /** The keys of `users` in insertion order, which `get_all_users` follows. */
    var order: seq<string>
    var history: map<string, seq<H>>
    var feedback: map<string, seq<FeedbackEntry>>

    ghost predicate Valid()
      reads this
    {
      Ordered(users, order)
    }

    /** `__init__`: load each file, a missing or unparsable one as empty. */
    constructor (sha256: Sha256, usersFile: Stored<seq<(string, User)>>,
                 historyFile: Stored<map<string, seq<H>>>,
                 feedbackFile: Stored<map<string, seq<FeedbackEntry>>>)
      ensures Valid()
      ensures this.sha256 == sha256
      ensures usersFile.Loaded? ==> (users, order) == IndexUsers(usersFile.data)
      ensures !usersFile.Loaded? ==> users == map[] && order == []
      ensures history == LoadOrEmpty(historyFile)
      ensures feedback == LoadOrEmpty(feedbackFile)
    {
      this.sha256 := sha256;
      if usersFile.Loaded? {
        var t := IndexUsers(usersFile.data);
        users, order := t.0, t.1;
      } else {
        users, order := map[], [];
      }
      history := LoadOrEmpty(historyFile);
      feedback := LoadOrEmpty(feedbackFile);
    }

    /** `register_user`. Both timestamps are the one clock reading `now`. */
    method RegisterUser(email: string, name: string, password: string, salt: Salt, now: string)
      returns (ok: bool, msg: string)
      requires Valid()
      modifies this`users, this`order
      ensures Valid()
      ensures var e := RegistrationCheck(email, name, password, email in old(users));
        && ok == e.None?
        && (!ok ==> msg == e.value.Message() && users == old(users) && order == old(order))
    ensures ok ==>
        && msg == "User registered successfully"
        && users == old(users)[email := User(email, name, HashPassword(sha256, password, salt), now, now)]
        && order == old(order) + [email]
        && VerifyPassword(sha256, password, users[email].password)
        && GetUserInfo(email) == Some(Profile(email, name, now, now))
    {
      var e := RegistrationCheck(email, name, password, email in users);
      if e.Some? {
        return false, e.value.Message();
      }
      users := users[email := User(email, name, HashPassword(sha256, password, salt), now, now)];
      order := order + [email];
      VerifyHashedPassword(sha256, password, salt);
      return true, "User registered successfully";
    }

    /** `login_user`: on success only the user's `last_login` changes and the
        fresh session id is returned. */
    method LoginUser(email: string, password: string, now: string, sessionId: string)
      returns (ok: bool, msg: string)
      requires Valid()
      modifies this`users
      ensures Valid()
      ensures var e := LoginCheck(sha256, old(users), email, password);
        && ok == e.None?
        && (!ok ==> msg == e.value.Message() && users == old(users))
      ensures ok ==> msg == sessionId && users == old(users)[email := old(users)[email].(lastLogin := now)]
    {
      var e := LoginCheck(sha256, users, email, password);
      if e.Some? {
        return false, e.value.Message();
      }
      users := users[email := users[email].(lastLogin := now)];
      return true, sessionId;
    }

    /** `change_password`: on success only the user's digest changes, to a
        freshly salted digest of the new password. */
    method ChangePassword(email: string, current: string, newPassword: string, salt: Salt)
      returns (ok: bool, msg: string)
      requires Valid()
      modifies this`users
      ensures Valid()
      ensures var e := PasswordChangeCheck(sha256, old(users), email, current, newPassword);
        && ok == e.None?
        && (!ok ==> msg == e.value.Message() && users == old(users))
      ensures ok ==>
        && msg == "Password changed successfully"
        && users == old(users)[email := old(users)[email].(password := HashPassword(sha256, newPassword, salt))]
        && VerifyPassword(sha256, newPassword, users[email].password)
    {
      var e := PasswordChangeCheck(sha256, users, email, current, newPassword);
      if e.Some? {
        return false, e.value.Message();
      }
      users := users[email := users[email].(password := HashPassword(sha256, newPassword, salt))];
      VerifyHashedPassword(sha256, newPassword, salt);
      return true, "Password changed successfully";
    }

    /** `get_user_info`: the stored record without its digest; `None` stands for
        the empty dictionary returned for an unknown email. */
    function GetUserInfo(email: string): (info: Option<Profile>)
      reads this
      ensures info.Some? <==> email in users
      ensures info.Some? ==> info.value == ProfileOf(users[email])
    {
      if email in users then Some(ProfileOf(users[email])) else None
    }

    /** `get_user_history`: the list oldest first, empty for an unknown email. */
    function GetUserHistory(email: string): (h: seq<H>)
      reads this
      ensures email in history ==> h == history[email]
      ensures email !in history ==> h == []
    {
      if email in history then history[email] else []
    }

    /** `save_user_history`: append to the user's list, creating it if absent. */
    method SaveUserHistory(email: string, entry: H)
      modifies this`history
      ensures history == old(history)[email := old(GetUserHistory(email)) + [entry]]
      ensures GetUserHistory(email)[..|old(GetUserHistory(email))|] == old(GetUserHistory(email))
    {
      history := history[email := GetUserHistory(email) + [entry]];
    }

    /** `get_user_feedback`: the list, empty for an unknown email. */
    function GetUserFeedback(email: string): (f: seq<FeedbackEntry>)
      reads this
      ensures email in feedback ==> f == feedback[email]
      ensures email !in feedback ==> f == []
    {
      if email in feedback then feedback[email] else []
    }

    /** `save_user_feedback`: drop the user's entries for the same response and
        append the new one. */
    method SaveUserFeedback(email: string, entry: FeedbackEntry)
      modifies this`feedback
      ensures feedback == old(feedback)[email := Upsert(old(GetUserFeedback(email)), entry)]
      ensures FindFeedback(GetUserFeedback(email), entry.responseId) == Some(entry)
      ensures Without(GetUserFeedback(email), entry.responseId) == Without(old(GetUserFeedback(email)), entry.responseId)
      ensures OnePerResponse(old(GetUserFeedback(email))) ==> OnePerResponse(GetUserFeedback(email))
    {
      var before := GetUserFeedback(email);
      feedback := feedback[email := Upsert(before, entry)];
      UpsertThenFind(before, entry, entry.responseId);
      UpsertKeepsOthers(before, entry);
      if OnePerResponse(before) {
        UpsertKeepsOnePerResponse(before, entry);
      }
    }

    /** `delete_user`: nothing changes for an unknown email; otherwise the user,
        their history and their feedback all go. */
    method DeleteUser(email: string) returns (ok: bool)
      requires Valid()
      modifies this`users, this`order, this`history, this`feedback
      ensures Valid()
      ensures ok == (email in old(users))
      ensures !ok ==> users == old(users) && order == old(order) && history == old(history) && feedback == old(feedback)
      ensures ok ==>
        && users == old(users) - {email}
        && order == Erase(old(order), email)
        && history == old(history) - {email}
        && feedback == old(feedback) - {email}
        && GetUserInfo(email) == None
        && GetUserHistory(email) == []
        && GetUserFeedback(email) == []
    {
      if email !in users {
        return false;
      }
      users := users - {email};
      EraseKeepsDistinct(order, email);
      order := Erase(order, email);
      history := history - {email};
      feedback := feedback - {email};
      return true;
    }

    /** `get_all_users`: every record without its digest, in insertion order. */
    method GetAllUsers() returns (list: seq<Profile>)
      requires Valid()
      ensures |list| == |order|
      ensures forall i :: 0 <= i < |order| ==> order[i] in users && list[i] == ProfileOf(users[order[i]])
    {
      list := [];
      var i := 0;
      while i < |order|
        invariant 0 <= i <= |order|
        invariant |list| == i
        invariant forall k :: 0 <= k < i ==> order[k] in users && list[k] == ProfileOf(users[order[k]])
      {
        assert order[i] in order;
        list := list + [ProfileOf(users[order[i]])];
        i := i + 1;
      }
    }

    /** `get_user_stats`: `None` (the empty dictionary) for an unknown email. */
    function GetUserStats(email: string): (s: Option<Stats>)
      reads this
      ensures s.None? <==> email !in users
      ensures s.Some? ==>
        var fb := GetUserFeedback(email);
        && s.value.totalChats == |GetUserHistory(email)|
        && s.value.totalFeedback == |fb|
        && s.value.positiveFeedback == CountRating(fb, "positive")
        && s.value.negativeFeedback == CountRating(fb, "negative")
        && s.value.positiveFeedback + s.value.negativeFeedback <= s.value.totalFeedback
        && s.value.satisfactionRate == SatisfactionRate(s.value.positiveFeedback, s.value.totalFeedback)
        && s.value.userInfo == ProfileOf(users[email])
    {
      if email !in users then None
      else
        var fb := GetUserFeedback(email);
        RatingsBounded(fb);
        var positive := CountRating(fb, "positive");
        var negative := CountRating(fb, "negative");
        Some(Stats(|GetUserHistory(email)|, |fb|, positive, negative,
                   SatisfactionRate(positive, |fb|), ProfileOf(users[email])))
    }
  }
}
