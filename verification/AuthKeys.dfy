/** The authorized_keys editor (internal/sshauth/sshauth.go). */
module AuthKeys {
  import opened Prelude
  import opened Text

  /** base64 decoding and the fingerprint, as given functions. */
  datatype Crypto = Crypto(decode: string -> Option<bytes>, digest: bytes -> string)

  datatype Key = Key(algorithm: string, blob: string, comment: string, fingerprint: string, line: nat)

  datatype KeyError = NotAKey | BadBase64 | ShortBlob | HeaderOverruns | WrongAlgorithm

  datatype Parsed = Accepted(key: Key) | Skipped(error: KeyError)

  /** keyTypePrefixes (sshauth.go:69-77). */
  const KEY_TYPES: seq<string> := [
    "ssh-ed25519", "ssh-rsa", "ecdsa-sha2-nistp256", "ecdsa-sha2-nistp384", "ecdsa-sha2-nistp521",
    "sk-ssh-ed25519@openssh.com", "sk-ecdsa-sha2-nistp256@openssh.com"]

  /** Printable ASCII throughout. */
  predicate IsAscii(s: string) { forall i | 0 <= i < |s| :: '!' <= s[i] <= '~' }

  function AsciiCode(c: char): (b: byte)
    requires c <= '~'
  {
    c as int
  }

  function Ascii(s: string): (r: bytes)
    requires IsAscii(s)
    ensures |r| == |s|
  {
    seq(|s|, i requires 0 <= i < |s| => AsciiCode(s[i]))
  }

  predicate PlainName(a: string) { 0 < |a| <= 34 && a[0] != '#' && IsAscii(a) }

  lemma ShortNamesArePlain()
    ensures PlainName("ssh-ed25519") && PlainName("ssh-rsa")
  {
  }

  lemma EcdsaNamesArePlain()
    ensures PlainName("ecdsa-sha2-nistp256") && PlainName("ecdsa-sha2-nistp384") && PlainName("ecdsa-sha2-nistp521")
  {
  }

  lemma SkNamesArePlain()
    ensures PlainName("sk-ssh-ed25519@openssh.com") && PlainName("sk-ecdsa-sha2-nistp256@openssh.com")
  {
  }

  lemma KeyTypesArePlain(a: string)
    requires a in KEY_TYPES
    ensures PlainName(a) && IsWord(a)
  {
    ShortNamesArePlain();
    EcdsaNamesArePlain();
    SkNamesArePlain();
  }

  /** checkBlobHeader (sshauth.go:145-157). */
  function CheckBlobHeader(raw: bytes, algorithm: string): (r: Option<KeyError>)
    requires IsAscii(algorithm)
  {
    if |raw| < 4 then Some(ShortBlob)
    else
      var n := GetU32(raw[..4]);
      if n + 4 > |raw| then Some(HeaderOverruns)
      else if raw[4..4 + n] != Ascii(algorithm) then Some(WrongAlgorithm)
      else None
  }

  /** A string of the SSH wire format: length, then bytes (section 5 of RFC 4251). */
  function WireString(s: string): (r: bytes)
    requires |s| < 0x1_0000_0000 && IsAscii(s)
  {
    PutU32(|s|) + Ascii(s)
  }

  /** The header check accepts exactly the blobs that begin with the algorithm name as
      a wire string, as section 6.6 of RFC 4253 lays out public keys. */
  lemma HeaderIsWireString(raw: bytes, algorithm: string)
    requires |algorithm| < 0x1_0000_0000 && IsAscii(algorithm)
    ensures CheckBlobHeader(raw, algorithm) == None <==> WireString(algorithm) <= raw
  {
    var w := WireString(algorithm);
    GetPutU32(|algorithm|);
    assert w[..4] == PutU32(|algorithm|) && w[4..] == Ascii(algorithm);
    if w <= raw {
      assert raw[..4] == w[..4] && raw[4..4 + |algorithm|] == w[4..];
    }
    if CheckBlobHeader(raw, algorithm) == None {
      PutGetU32(raw[..4]);
      assert |algorithm| == GetU32(raw[..4]);
      assert raw == raw[..4] + (raw[4..4 + |algorithm|] + raw[4 + |algorithm|..]);
    }
  }

  /** ParseKey (sshauth.go:90-132); the line number is the caller's. */
  function ParseKey(cr: Crypto, line: string): (r: Parsed) {
    var trimmed := Trim(line);
    if trimmed == "" || trimmed[0] == '#' then Skipped(NotAKey)
    else
      var fields := Fields(trimmed);
      if |fields| < 2 || fields[0] !in KEY_TYPES then Skipped(NotAKey)
      else
        KeyTypesArePlain(fields[0]);
        match cr.decode(fields[1])
        case None => Skipped(BadBase64)
        case Some(raw) =>
          match CheckBlobHeader(raw, fields[0])
          case Some(error) => Skipped(error)
          case None => Accepted(Key(fields[0], fields[1], Join(fields[2..], " "), cr.digest(raw), 0))
  }

  /** Key.Text (sshauth.go:160-166). */
  function KeyText(k: Key): (r: string) {
    Join([k.algorithm, k.blob] + if k.comment != "" then [k.comment] else [], " ")
  }

  /** What ParseKey can return. */
  predicate WellFormed(cr: Crypto, k: Key) {
    && k.line == 0 && k.algorithm in KEY_TYPES && IsWord(k.blob)
    && k.comment == Join(Fields(k.comment), " ")
    && cr.decode(k.blob).Some?
    && IsAscii(k.algorithm)
    && CheckBlobHeader(cr.decode(k.blob).value, k.algorithm) == None
    && k.fingerprint == cr.digest(cr.decode(k.blob).value)
  }

  lemma ParsedIsWellFormed(cr: Crypto, line: string)
    requires ParseKey(cr, line).Accepted?
    ensures WellFormed(cr, ParseKey(cr, line).key)
  {
    var fields := Fields(Trim(line));
    FieldsAreWords(Trim(line));
    KeyTypesArePlain(fields[0]);
    forall w | w in fields[2..] ensures IsWord(w) { assert w in fields; }
    FieldsOfJoin(fields[2..]);
    assert fields[1] in fields;
  }

  lemma TextIsWords(cr: Crypto, k: Key)
    requires WellFormed(cr, k)
    ensures var words := [k.algorithm, k.blob] + Fields(k.comment);
            (forall w | w in words :: IsWord(w)) && KeyText(k) == Join(words, " ")
  {
    FieldsAreWords(k.comment);
    KeyTypesArePlain(k.algorithm);
    if k.comment != "" {
      assert Fields(k.comment) != [];
      JoinNests([k.algorithm, k.blob], Fields(k.comment));
    } else {
      assert [k.algorithm, k.blob] + Fields("") == [k.algorithm, k.blob] + [];
    }
  }

  /** Printing a key and parsing it again gives the key back. */
  lemma TextParsesBack(cr: Crypto, k: Key)
    requires WellFormed(cr, k)
    ensures ParseKey(cr, KeyText(k)) == Accepted(k)
  {
    var words := [k.algorithm, k.blob] + Fields(k.comment);
    TextIsWords(cr, k);
    JoinIsSolid(words);
    TrimKeepsSolid(KeyText(k));
    FieldsOfJoin(words);
    KeyTypesArePlain(k.algorithm);
    assert words[2..] == Fields(k.comment);
  }

  /** ParseKey, Text, ParseKey: nothing is lost but the line number. */
  lemma ParseTextParse(cr: Crypto, line: string)
    requires ParseKey(cr, line).Accepted?
    ensures ParseKey(cr, KeyText(ParseKey(cr, line).key)) == ParseKey(cr, line)
  {
    ParsedIsWellFormed(cr, line);
    TextParsesBack(cr, ParseKey(cr, line).key);
  }
}
