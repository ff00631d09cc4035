/** The names of the keys PulseWatch keeps in Redis, and the glob pattern that
    revokes a user's sessions. The rest of the project works with the datatype
    `Key`; this module shows that nothing is lost by it: two different keys
    never share a name, and the revocation pattern selects exactly one user's
    whitelist entries among all key families. */
module Keys {

  /** One refresh session: the `sub` and `jti` claims of a refresh token. */
  datatype Sid = Sid(user: int, jti: string)

  datatype Key =
    | Refresh(sid: Sid)
    | RefreshUsed(sid: Sid)
    | LinkCode(code: string)
    | Mute(server: int, channel: string)
    | PendingDelete(chat: int)
    | RuleDraft(chat: int)
    | PasswordReset(token: string)
    | Dashboard(user: int)

  function Digit(d: nat): char
    requires d < 10
  {
    "0123456789"[d]
  }

  function Digits(n: nat): string {
    if n < 10 then [Digit(n)] else Digits(n / 10) + [Digit(n % 10)]
  }

  /** The decimal text of an id. */
  function Decimal(n: int): string {
    if n < 0 then "-" + Digits(-n) else Digits(n)
  }

  function Name(k: Key): string {
    match k
    case Refresh(sid) => "refresh:" + (Decimal(sid.user) + (":" + sid.jti))
    case RefreshUsed(sid) => "refresh_used:" + (Decimal(sid.user) + (":" + sid.jti))
    case LinkCode(code) => "tg:linkcode:" + code
    case Mute(server, channel) => "mute:" + (Decimal(server) + (":" + channel))
    case PendingDelete(chat) => "pending_delete:" + Decimal(chat)
    case RuleDraft(chat) => "rule_draft:" + Decimal(chat)
    case PasswordReset(token) => "pwd_reset:" + token
    case Dashboard(user) => "dashboard:" + Decimal(user)
  }

  /** The MATCH argument of the SCAN that revokes all sessions of a user. */
  function SessionsPattern(user: int): string {
    "refresh:" + Decimal(user) + ":*"
  }

  /** What that pattern is meant to select. */
  predicate SessionOf(k: Key, user: int) {
    k.Refresh? && k.sid.user == user
  }

  /** Redis glob matching for literals, `?` and `*`. The pattern above has no
      character class and no escape. */
  predicate Glob(p: string, s: string)
    decreases |p| + |s|
  {
    if p == "" then s == ""
    else if p[0] == '*' then Glob(p[1..], s) || (s != "" && Glob(p, s[1..]))
    else s != "" && (p[0] == '?' || p[0] == s[0]) && Glob(p[1..], s[1..])
  }

  // ----- decimal numerals

  predicate Plain(s: string) {
    forall i | 0 <= i < |s| :: s[i] in "-0123456789"
  }

  lemma {:induction false} DigitsPlain(n: nat)
    ensures |Digits(n)| > 0 && forall i | 0 <= i < |Digits(n)| :: Digits(n)[i] in "0123456789"
  {
    if n >= 10 {
      DigitsPlain(n / 10);
    }
  }

  lemma DecimalPlain(n: int)
    ensures Plain(Decimal(n))
  {
    DigitsPlain(if n < 0 then -n else n);
  }

  lemma SplitLast(a: string, c: char, b: string, d: char)
    requires a + [c] == b + [d]
    ensures a == b && c == d
  {
    var s := a + [c];
    assert |a| == |b| && s[|a|] == c && s[|b|] == d;
    assert a == s[..|a|] && b == s[..|b|];
  }

  lemma OneDigit(n: nat)
    ensures |Digits(n)| == 1 <==> n < 10
    ensures n < 10 ==> Digits(n) == [Digit(n)]
  {
    if n >= 10 {
      DigitsPlain(n / 10);
    }
  }

  lemma {:induction false} DigitsInjective(m: nat, n: nat)
    requires Digits(m) == Digits(n)
    ensures m == n
  {
    OneDigit(m);
    OneDigit(n);
    if m >= 10 {
      SplitLast(Digits(m / 10), Digit(m % 10), Digits(n / 10), Digit(n % 10));
      DigitsInjective(m / 10, n / 10);
    }
  }

  lemma DecimalInjective(m: int, n: int)
    requires Decimal(m) == Decimal(n)
    ensures m == n
  {
    DigitsPlain(if m < 0 then -m else m);
    DigitsPlain(if n < 0 then -n else n);
    assert m < 0 <==> Decimal(m)[0] == '-';
    assert n < 0 <==> Decimal(n)[0] == '-';
    if m < 0 {
      assert Decimal(m)[1..] == Digits(-m) && Decimal(n)[1..] == Digits(-n);
      DigitsInjective(-m, -n);
    } else {
      DigitsInjective(m, n);
    }
  }

  /** A numeral ends at the first colon, so the id and the rest can be read back. */
  lemma ReadBack(m: int, x: string, n: int, y: string)
    requires Decimal(m) + (":" + x) == Decimal(n) + (":" + y)
    ensures m == n && x == y
  {
    var a, b := Decimal(m), Decimal(n);
    DecimalPlain(m);
    DecimalPlain(n);
    var s := a + (":" + x);
    assert s[|a|] == ':' && s[|b|] == ':';
    assert forall i | 0 <= i < |a| :: s[i] == a[i];
    assert forall i | 0 <= i < |b| :: s[i] == b[i];
    assert |a| == |b|;
    assert a == s[..|a|] && b == s[..|b|];
    assert x == s[|a| + 1..] && y == s[|b| + 1..];
    DecimalInjective(m, n);
  }

  // ----- key names

  lemma DropPrefix(p: string, x: string, y: string)
    requires p + x == p + y
    ensures x == y
  {
    assert x == (p + x)[|p|..] && y == (p + y)[|p|..];
  }

  /** The constant text in front of a key's arguments. */
  function Family(k: Key): string {
    match k
    case Refresh(_) => "refresh:"
    case RefreshUsed(_) => "refresh_used:"
    case LinkCode(_) => "tg:linkcode:"
    case Mute(_, _) => "mute:"
    case PendingDelete(_) => "pending_delete:"
    case RuleDraft(_) => "rule_draft:"
    case PasswordReset(_) => "pwd_reset:"
    case Dashboard(_) => "dashboard:"
  }

  lemma FamilyIsPrefix(k: Key)
    ensures Family(k) <= Name(k)
  {
  }

  /** No family's constant text starts another family's. */
  lemma FamiliesApart(a: Key, b: Key)
    requires Family(a) <= Name(b)
    ensures Family(a) == Family(b)
  {
    var f, g := Family(a), Family(b);
    FamilyIsPrefix(b);
    assert forall i | 0 <= i < |f| && i < |g| :: f[i] == Name(b)[i] == g[i];
    assert f[0] == g[0] && f[1] == g[1];
    assert |f| > 7 && |g| > 7 ==> f[7] == g[7];
  }

  /** Different keys have different names, so one map from keys to values is a
      faithful picture of the flat Redis name space. */
  lemma NamesInjective(a: Key, b: Key)
    requires Name(a) == Name(b)
    ensures a == b
  {
    FamilyIsPrefix(a);
    FamiliesApart(a, b);
    var f := Family(a);
    match a
    case Refresh(sid) =>
      DropPrefix(f, Decimal(sid.user) + (":" + sid.jti), Decimal(b.sid.user) + (":" + b.sid.jti));
      ReadBack(sid.user, sid.jti, b.sid.user, b.sid.jti);
    case RefreshUsed(sid) =>
      DropPrefix(f, Decimal(sid.user) + (":" + sid.jti), Decimal(b.sid.user) + (":" + b.sid.jti));
      ReadBack(sid.user, sid.jti, b.sid.user, b.sid.jti);
    case Mute(server, channel) =>
      DropPrefix(f, Decimal(server) + (":" + channel), Decimal(b.server) + (":" + b.channel));
      ReadBack(server, channel, b.server, b.channel);
    case LinkCode(code) => DropPrefix(f, code, b.code);
    case PasswordReset(token) => DropPrefix(f, token, b.token);
    case PendingDelete(chat) =>
      DropPrefix(f, Decimal(chat), Decimal(b.chat));
      DecimalInjective(chat, b.chat);
    case RuleDraft(chat) =>
      DropPrefix(f, Decimal(chat), Decimal(b.chat));
      DecimalInjective(chat, b.chat);
    case Dashboard(user) =>
      DropPrefix(f, Decimal(user), Decimal(b.user));
      DecimalInjective(user, b.user);
  }

  // ----- the revocation pattern

  lemma {:induction false} StarMatchesAll(s: string)
    ensures Glob("*", s)
  {
    if s == "" {
      assert Glob("*"[1..], s);
    } else {
      StarMatchesAll(s[1..]);
    }
  }

  /** A literal followed by `*` is a prefix test. */
  lemma {:induction false} GlobIsPrefix(p: string, s: string)
    requires '*' !in p && '?' !in p
    ensures Glob(p + "*", s) <==> p <= s
  {
    if p == "" {
      assert p + "*" == "*";
      StarMatchesAll(s);
    } else {
      assert (p + "*")[1..] == p[1..] + "*";
      if s != "" && p[0] == s[0] {
        GlobIsPrefix(p[1..], s[1..]);
        assert p == [p[0]] + p[1..] && s == [s[0]] + s[1..];
      }
    }
  }

  function SessionsPrefix(user: int): string {
    "refresh:" + Decimal(user) + ":"
  }

  lemma PatternIsPrefix(user: int, s: string)
    ensures Glob(SessionsPattern(user), s) <==> SessionsPrefix(user) <= s
  {
    DecimalPlain(user);
    assert SessionsPattern(user) == SessionsPrefix(user) + "*";
    GlobIsPrefix(SessionsPrefix(user), s);
  }

  /** The pattern of one user selects that user's whitelist entries, and no
      other user's, no used mark and no key of another family. */
  lemma PatternSelectsOneUser(user: int, k: Key)
    ensures Glob(SessionsPattern(user), Name(k)) <==> SessionOf(k, user)
  {
    PatternIsPrefix(user, Name(k));
    if SessionsPrefix(user) <= Name(k) {
      PrefixGivesUser(user, k);
    }
    if SessionOf(k, user) {
      UserGivesPrefix(k);
    }
  }

  lemma UserGivesPrefix(k: Key)
    requires k.Refresh?
    ensures SessionsPrefix(k.sid.user) <= Name(k)
  {
    assert Name(k) == SessionsPrefix(k.sid.user) + k.sid.jti;
  }

  lemma PrefixGivesFamily(user: int, k: Key)
    requires SessionsPrefix(user) <= Name(k)
    ensures k.Refresh?
  {
    var any := Refresh(Sid(user, ""));
    assert Family(any) <= SessionsPrefix(user) <= Name(k);
    FamiliesApart(any, k);
  }

  lemma Regroup(a: string, b: string, c: string, d: string)
    ensures a + b + c + d == a + (b + (c + d))
  {
  }

  lemma PrefixGivesUser(user: int, k: Key)
    requires SessionsPrefix(user) <= Name(k)
    ensures SessionOf(k, user)
  {
    PrefixGivesFamily(user, k);
    var rest := Name(k)[|SessionsPrefix(user)|..];
    var id, id' := Decimal(user), Decimal(k.sid.user);
    assert SessionsPrefix(user) + rest == Name(k);
    Regroup("refresh:", id, ":", rest);
    DropPrefix("refresh:", id + (":" + rest), id' + (":" + k.sid.jti));
    ReadBack(user, rest, k.sid.user, k.sid.jti);
  }

  // ----- what the names say

  function DigitWorth(c: char): int { c as int - '0' as int }

  /** The number a string of digits stands for. */
  function Worth(s: string): int {
    if s == "" then 0 else 10 * Worth(s[..|s| - 1]) + DigitWorth(s[|s| - 1])
  }

  lemma DigitStands(d: nat)
    requires d < 10
    ensures DigitWorth(Digit(d)) == d
  {
  }

  /** A numeral stands for its number and has no leading zero. */
  lemma {:induction false} DigitsStandFor(n: nat)
    ensures Worth(Digits(n)) == n
    ensures n > 0 ==> Digits(n)[0] != '0'
  {
    if n < 10 {
      DigitStands(n);
      assert Digits(n)[..0] == "";
    } else {
      DigitsStandFor(n / 10);
      DigitsPlain(n / 10);
      DigitStands(n % 10);
      assert Digits(n)[..|Digits(n)| - 1] == Digits(n / 10);
    }
  }

  /** One key of each family, written out. */
  lemma NamesWrittenOut()
    ensures Name(Refresh(Sid(42, "x1"))) == "refresh:42:x1"
    ensures Name(RefreshUsed(Sid(42, "x1"))) == "refresh_used:42:x1"
    ensures Name(LinkCode("x1")) == "tg:linkcode:x1"
    ensures Name(Mute(42, "email")) == "mute:42:email"
    ensures Name(PendingDelete(-42)) == "pending_delete:-42"
    ensures Name(RuleDraft(42)) == "rule_draft:42"
    ensures Name(PasswordReset("x1")) == "pwd_reset:x1"
    ensures Name(Dashboard(42)) == "dashboard:42"
    ensures SessionsPattern(42) == "refresh:42:*"
  {
    assert Digits(4) == "4" && Digits(42) == "42";
  }
}
