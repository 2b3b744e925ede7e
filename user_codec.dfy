/**
 * The stored form of a user. The client writes `JSON.stringify(user)` under
 * the "user" key and reads it back with `JSON.parse`; this model stands for
 * that pair with a length-prefixed text encoding that has the same two
 * properties the client depends on: writing never yields the empty string,
 * and reading back what was written gives the same user. A string that is
 * not an encoding reads as `None`, where `JSON.parse` throws.
 */
module UserCodec {
  import opened Js
  import opened Types

  /** One field: its length in decimal, a colon, then the text itself. */
  function EncodeText(s: string): string
  {
    NatToDigits(|s|) + ":" + s
  }

  /** An optional field: "!" when absent. */
  function EncodeOptional(o: Option<string>): string
  {
    match o
    case None => "!"
    case Some(s) => EncodeText(s)
  }

  function Serialize(u: User): (s: string)
    ensures s != ""
  {
    EncodeText(u.id) + (EncodeText(u.fullName) + (EncodeText(u.email) + (EncodeText(u.username)
      + (EncodeOptional(u.department) + EncodeOptional(u.level)))))
  }

  /** Reads one field off the front of `s`, returning it and what follows. */
  function DecodeText(s: string): Option<(string, string)>
  {
    var k := DigitRunLength(s);
    if k == 0 || k >= |s| || s[k] != ':' then None
    else
      var n := DigitsToNat(s[..k]);
      if |s| - (k + 1) < n then None
      else Some((s[k + 1..k + 1 + n], s[k + 1 + n..]))
  }

  function DecodeOptional(s: string): Option<(Option<string>, string)>
  {
    if s != [] && s[0] == '!' then Some((None, s[1..]))
    else match DecodeText(s)
      case None => None
      case Some((v, rest)) => Some((Some(v), rest))
  }

  function Deserialize(s: string): Option<User>
  {
    match DecodeText(s)
    case None => None
    case Some((id, s1)) =>
      match DecodeText(s1)
      case None => None
      case Some((fullName, s2)) =>
        match DecodeText(s2)
        case None => None
        case Some((email, s3)) =>
          match DecodeText(s3)
          case None => None
          case Some((username, s4)) =>
            match DecodeOptional(s4)
            case None => None
            case Some((department, s5)) =>
              match DecodeOptional(s5)
              case None => None
              case Some((level, s6)) =>
                if s6 == [] then Some(User(id, fullName, email, username, department, level))
                else None
  }

  lemma DecodeEncodedText(v: string, rest: string)
    ensures DecodeText(EncodeText(v) + rest) == Some((v, rest))
  {
    var ds := NatToDigits(|v|);
    var tail := ":" + v + rest;
    var s := EncodeText(v) + rest;
    assert s == ds + tail;
    DigitRunOfDigits(ds, tail);
    DigitsRoundTrip(|v|);
    var k := |ds|;
    assert s[k] == ':';
    assert s[k + 1..k + 1 + |v|] == v;
    assert s[k + 1 + |v|..] == rest;
  }

  lemma DecodeEncodedOptional(o: Option<string>, rest: string)
    ensures DecodeOptional(EncodeOptional(o) + rest) == Some((o, rest))
  {
    match o
    case None =>
      assert (EncodeOptional(o) + rest)[1..] == rest;
    case Some(v) =>
      DecodeEncodedText(v, rest);
      assert NatToDigits(|v|)[0] != '!';
      assert (EncodeOptional(o) + rest)[0] != '!';
  }

  /** Reading back a written user gives that user. */
  lemma {:induction false} DeserializeSerialize(u: User)
    ensures Deserialize(Serialize(u)) == Some(u)
  {
    var s5 := EncodeOptional(u.level);
    var s4 := EncodeOptional(u.department) + s5;
    var s3 := EncodeText(u.username) + s4;
    var s2 := EncodeText(u.email) + s3;
    var s1 := EncodeText(u.fullName) + s2;
    assert Serialize(u) == EncodeText(u.id) + s1;
    DecodeEncodedText(u.id, s1);
    DecodeEncodedText(u.fullName, s2);
    DecodeEncodedText(u.email, s3);
    DecodeEncodedText(u.username, s4);
    DecodeEncodedOptional(u.department, s5);
    assert s5 == EncodeOptional(u.level) + [];
    DecodeEncodedOptional(u.level, []);
  }
}
