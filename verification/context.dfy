/**
 * The application context shared by both handlers, and the validation of
 * the `Authorization` header against the configured key.
 */
module Context {
  import opened Wrappers
  import opened Matching
  import Utils
  import opened Data

  /** `Token (?P<token>[a-z0-9]*)`, unanchored. */
  const AuthPattern := Pattern("Token ", LowerAlnum, "token")

  /**
   * `AppContext.ValidateAuthToken`: the header matches the pattern, and the
   * text of its `token` group equals the configured key.
   */
  function ValidateAuthToken(authKey: string, key: string): bool {
    if MatchString(AuthPattern, key) then
      var captures := Utils.NamedCaptures(FindStringSubmatch(AuthPattern, key), SubexpNames(AuthPattern));
      authKey == Utils.Get(captures, "token")
    else
      false
  }

  /** The captured value: the longest `[a-z0-9]` run after the first "Token ". */
  function CapturedKey(key: string): (v: Option<string>)
  {
    match IndexOf(key, "Token ")
    case None => None
    case Some(i) => Some(LongestRun(key[i + 6..], LowerAlnum))
  }

  /**
   * Validation accepts exactly when "Token " occurs and the longest
   * `[a-z0-9]` run after its first occurrence equals the configured key.
   */
  lemma ValidateIsCapturedKey(authKey: string, key: string)
    ensures ValidateAuthToken(authKey, key) <==> CapturedKey(key) == Some(authKey)
  {
    var found := FindStringSubmatch(AuthPattern, key);
    if found.Some? {
      Utils.NamedCapturesSpec(found.value, SubexpNames(AuthPattern));
      assert Utils.LastWithName(SubexpNames(AuthPattern), 1, 2);
    }
  }

  /**
   * The conditions under which a header carrying "Token " first at `i` is
   * accepted: the key follows the literal, is all `[a-z0-9]`, and the
   * character after it (if any) does not continue the run.
   */
  ghost predicate AcceptedAt(authKey: string, key: string, i: nat) {
    && i + 6 + |authKey| <= |key|
    && OccursAt(key, "Token ", i)
    && (forall j :: 0 <= j < i ==> !OccursAt(key, "Token ", j))
    && key[i + 6..i + 6 + |authKey|] == authKey
    && AllInClass(authKey, LowerAlnum)
    && (i + 6 + |authKey| < |key| ==> !InClass(key[i + 6 + |authKey|], LowerAlnum))
  }

  /**
   * Reference definition, independent of the matcher: the header is
   * `p + "Token " + authKey + q` where "Token " does not occur in `p`,
   * the key is all `[a-z0-9]`, and `q` does not continue the run.
   */
  ghost predicate AcceptedHeader(authKey: string, key: string) {
    exists i: nat :: AcceptedAt(authKey, key, i)
  }

  lemma AcceptedFromValidate(authKey: string, key: string)
    requires ValidateAuthToken(authKey, key)
    ensures AcceptedAt(authKey, key, IndexOf(key, "Token ").value)
  {
    ValidateIsCapturedKey(authKey, key);
    var i := IndexOf(key, "Token ").value;
    var rest := key[i + 6..];
    assert LongestRun(rest, LowerAlnum) == authKey;
    assert key[i + 6..i + 6 + |authKey|] == rest[..|authKey|];
  }

  lemma ValidateFromAcceptedAt(authKey: string, key: string, i: nat)
    requires AcceptedAt(authKey, key, i)
    ensures ValidateAuthToken(authKey, key)
  {
    var idx := IndexOf(key, "Token ");
    assert idx == Some(i);
    var rest := key[i + 6..];
    assert rest[..|authKey|] == authKey;
    LongestRunUnique(rest, LowerAlnum, authKey);
    ValidateIsCapturedKey(authKey, key);
  }

  /** The validator agrees with the reference definition, in both directions. */
  lemma ValidateMatchesReference(authKey: string, key: string)
    ensures ValidateAuthToken(authKey, key) <==> AcceptedHeader(authKey, key)
  {
    if ValidateAuthToken(authKey, key) {
      AcceptedFromValidate(authKey, key);
    }
    if AcceptedHeader(authKey, key) {
      var i: nat :| AcceptedAt(authKey, key, i);
      ValidateFromAcceptedAt(authKey, key, i);
    }
  }

  /** A header without "Token " is rejected, whatever the key. */
  lemma NoLiteralRejected(authKey: string, key: string)
    requires forall j :: 0 <= j <= |key| ==> !OccursAt(key, "Token ", j)
    ensures !ValidateAuthToken(authKey, key)
  {
  }

  /**
   * Leading text without "Token " in it does not matter, since the pattern
   * is unanchored: `prefix + "Token " + k` is accepted for the configured
   * key `k` when `k` is `[a-z0-9]*`.
   */
  lemma UnanchoredAccepted(authKey: string, prefix: string)
    requires AllInClass(authKey, LowerAlnum)
    requires forall j :: 0 <= j < |prefix| ==> !OccursAt(prefix + "Token ", "Token ", j)
    ensures ValidateAuthToken(authKey, prefix + "Token " + authKey)
  {
    var key := prefix + "Token " + authKey;
    var i := |prefix|;
    assert key[i..i + 6] == "Token ";
    forall j | 0 <= j < i ensures !OccursAt(key, "Token ", j) {
      assert !OccursAt(prefix + "Token ", "Token ", j);
      assert key[j..j + 6] == (prefix + "Token ")[j..j + 6];
    }
    assert key[i + 6..i + 6 + |authKey|] == authKey;
    ValidateFromAcceptedAt(authKey, key, i);
  }

  /** `"Token " + k` is accepted for the configured key `k` when `k` is `[a-z0-9]*`. */
  lemma ExactHeaderAccepted(authKey: string)
    requires AllInClass(authKey, LowerAlnum)
    ensures ValidateAuthToken(authKey, "Token " + authKey)
  {
    UnanchoredAccepted(authKey, "");
    assert "" + "Token " + authKey == "Token " + authKey;
  }

  /** A configured key with a character outside `[a-z0-9]` is never matched. */
  lemma KeyOutsideClassNeverAccepted(authKey: string, key: string)
    requires !AllInClass(authKey, LowerAlnum)
    ensures !ValidateAuthToken(authKey, key)
  {
    ValidateIsCapturedKey(authKey, key);
  }

  /**
   * With an empty configured key, a header is accepted exactly when "Token "
   * occurs and its first occurrence is not followed by `[a-z0-9]`.
   */
  lemma EmptyKeyAcceptance(key: string)
    ensures ValidateAuthToken("", key) <==>
              match IndexOf(key, "Token ")
              case None => false
              case Some(i) => i + 6 == |key| || !InClass(key[i + 6], LowerAlnum)
  {
    ValidateIsCapturedKey("", key);
  }

  /** A longer run than the key is rejected: "Token abcd" for key "abc". */
  lemma LongerRunRejected()
    ensures !ValidateAuthToken("abc", "Token abcd")
  {
    var key := "Token abcd";
    assert OccursAt(key, "Token ", 0);
    assert IndexOf(key, "Token ") == Some(0);
    assert key[6..] == "abcd";
    LongestRunUnique("abcd", LowerAlnum, "abcd");
    ValidateIsCapturedKey("abc", key);
  }

  /** A run ended by a character outside `[a-z0-9]` is accepted: "Token abc!", "Token abcX". */
  lemma RunEndedByOtherCharAccepted(stop: char)
    requires !InClass(stop, LowerAlnum)
    ensures ValidateAuthToken("abc", "Token abc" + [stop])
  {
    var key := "Token abc" + [stop];
    assert OccursAt(key, "Token ", 0);
    assert key[6..9] == "abc";
    ValidateFromAcceptedAt("abc", key, 0);
  }

  /**
   * `AppContext`: the configured key, read-only after construction, and the
   * `devices` table reached through the shared database handle.
   */
  class AppContext {
    const authKey: string
    var devices: map<string, Row>

    /** `NewAppContext`. */
    constructor(db: map<string, Row>, authKey: string)
      ensures this.authKey == authKey && devices == db
    {
      this.authKey := authKey;
      devices := db;
    }
  }
}
