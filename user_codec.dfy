/** The signed-in user and the text form it is kept in between page loads. The
    application stores `JSON.stringify(user)` and reads it back with `JSON.parse`; this
    module stands for that pair with a length-prefixed text form of the same fields, so
    that the reload path can be followed: what was written reads back as the same user,
    and text that is not a user fails to parse. */
module UserCodec {
  import opened Common

  /** A user as the login and registration responses return it; `token` is missing when
      the response carries none. */
  datatype User = User(id: nat, username: string, email: string, role: string, token: Option<string>)

  /** One text field: its length, a colon, the text. */
  function Field(x: string): string {
    NatToString(|x|) + [':'] + x
  }

  function ParseField(s: string): (r: Option<(string, string)>)
    ensures r.Some? ==> |r.value.1| < |s|
  {
    match ParseDigits(s)
    case None => None
    case Some((n, rest)) =>
      if |rest| > n && rest[0] == ':' then Some((rest[1..n + 1], rest[n + 1..])) else None
  }

  lemma FieldRoundTrip(x: string, rest: string)
    ensures ParseField(Field(x) + rest) == Some((x, rest))
  {
    var tail := [':'] + x + rest;
    assert Field(x) + rest == NatToString(|x|) + tail;
    ParseNatToString(|x|, tail);
    assert tail[1..|x| + 1] == x;
    assert tail[|x| + 1..] == rest;
  }

  function TokenPart(t: Option<string>): string {
    match t
    case None => "-"
    case Some(v) => "+" + Field(v)
  }

  function ParseToken(s: string): Option<Option<string>> {
    if s == "-" then Some(None)
    else if s != [] && s[0] == '+' then
      match ParseField(s[1..])
      case Some((v, rest)) => if rest == [] then Some(Some(v)) else None
      case None => None
    else None
  }

  lemma TokenRoundTrip(t: Option<string>)
    ensures ParseToken(TokenPart(t)) == Some(t)
  {
    if t.Some? {
      var s := TokenPart(t);
      assert s[1..] == Field(t.value) + [];
      FieldRoundTrip(t.value, []);
    }
  }

  /** `JSON.stringify(user)`. */
  function Serialize(u: User): string {
    NatToString(u.id) + ([';'] + (Field(u.username) + (Field(u.email) + (Field(u.role) + TokenPart(u.token)))))
  }

  /** `JSON.parse(text)` read as a user; `None` when it throws. */
  function Parse(s: string): Option<User> {
    match ParseDigits(s)
    case None => None
    case Some((id, r0)) =>
      if r0 == [] || r0[0] != ';' then None
      else
        match ParseField(r0[1..])
        case None => None
        case Some((username, r1)) =>
          match ParseField(r1)
          case None => None
          case Some((email, r2)) =>
            match ParseField(r2)
            case None => None
            case Some((role, r3)) =>
              match ParseToken(r3)
              case None => None
              case Some(token) => Some(User(id, username, email, role, token))
  }

  /** A stored user reads back as itself. */
  lemma {:induction false} ParseSerialize(u: User)
    ensures Parse(Serialize(u)) == Some(u)
  {
    var r3 := TokenPart(u.token);
    var r2 := Field(u.role) + r3;
    var r1 := Field(u.email) + r2;
    var r0 := [';'] + (Field(u.username) + r1);
    ParseNatToString(u.id, r0);
    assert r0[1..] == Field(u.username) + r1;
    FieldRoundTrip(u.username, r1);
    FieldRoundTrip(u.email, r2);
    FieldRoundTrip(u.role, r3);
    TokenRoundTrip(u.token);
  }

  /** Text that does not start with a number is not a user. */
  lemma ParseRejectsNonUser(s: string)
    requires s == [] || !IsDigit(s[0])
    ensures Parse(s) == None
  {
  }
}
