/**
  Public keys as the program handles them: compared, looked up in the authorized
  list, and printed as a known-hosts line. The key material itself is opaque.
 */
module Keys {
  import opened Common
  import Base64

  /** An `ssh.PublicKey`: `Type()` and the wire encoding returned by `Marshal()`. */
  datatype PublicKey = PublicKey(keyType: string, wire: seq<byte>)

  /** `ssh.KeysEqual`: two keys are equal when their wire encodings are. */
  predicate KeysEqual(a: PublicKey, b: PublicKey) {
    a.wire == b.wire
  }

  /** The wire encodings of a key list, in order. */
  function Wires(keys: seq<PublicKey>): (ws: seq<seq<byte>>)
    ensures |ws| == |keys|
    decreases |keys|
  {
    if keys == [] then [] else [keys[0].wire] + Wires(keys[1..])
  }

  /** Some entry equals the key exactly when the key's wire encoding is among the list's. */
  lemma {:induction false} SomeEntryEqual(keys: seq<PublicKey>, key: PublicKey)
    ensures (exists i | 0 <= i < |keys| :: KeysEqual(key, keys[i])) <==> key.wire in Wires(keys)
    decreases |keys|
  {
    if keys != [] {
      SomeEntryEqual(keys[1..], key);
      if key.wire in Wires(keys[1..]) {
        var i :| 0 <= i < |keys[1..]| && KeysEqual(key, keys[1..][i]);
        assert KeysEqual(key, keys[i + 1]);
      }
      if exists i | 0 <= i < |keys| :: KeysEqual(key, keys[i]) {
        var i :| 0 <= i < |keys| && KeysEqual(key, keys[i]);
        if i > 0 {
          assert KeysEqual(key, keys[1..][i - 1]);
        }
      }
    }
  }

  /**
    The authorization rule: the presented key equals some entry of the
    authorized list, that is, its wire encoding is among the list's; the key
    type and everything else about the key play no part.
   */
  predicate IsAuthorized(authorizedKeys: seq<PublicKey>, key: PublicKey): (ok: bool)
    ensures ok <==> key.wire in Wires(authorizedKeys)
  {
    SomeEntryEqual(authorizedKeys, key);
    exists i | 0 <= i < |authorizedKeys| :: KeysEqual(key, authorizedKeys[i])
  }

  /** `formatKnownHosts`: the key type, one space, then the standard base64 of the wire encoding. */
  function FormatKnownHosts(key: PublicKey): (line: string)
    ensures |line| == |key.keyType| + 1 + 4 * ((|key.wire| + 2) / 3)
    ensures line[..|key.keyType|] == key.keyType && line[|key.keyType|] == ' '
  {
    key.keyType + " " + Base64.Encode(key.wire)
  }

  /** Splits a line at its first space. */
  function SplitAtSpace(s: string): Option<(string, string)>
    decreases |s|
  {
    if s == [] then None
    else if s[0] == ' ' then Some(([], s[1..]))
    else
      var rest := SplitAtSpace(s[1..]);
      if rest.None? then None else Some(([s[0]] + rest.value.0, rest.value.1))
  }

  /** Reads a known-hosts line back: the text before the first space is the type, the rest the base64 key. */
  function ParseKnownHosts(line: string): Option<PublicKey> {
    var parts := SplitAtSpace(line);
    if parts.None? then None
    else
      var wire := Base64.Decode(parts.value.1);
      if wire.None? then None else Some(PublicKey(parts.value.0, wire.value))
  }

  lemma {:induction false} SplitAtFirstSpace(prefix: string, rest: string)
    requires forall i | 0 <= i < |prefix| :: prefix[i] != ' '
    ensures SplitAtSpace(prefix + " " + rest) == Some((prefix, rest))
    decreases |prefix|
  {
    var s := prefix + " " + rest;
    if prefix == [] {
      assert s[1..] == rest;
    } else {
      assert s[1..] == prefix[1..] + " " + rest;
      SplitAtFirstSpace(prefix[1..], rest);
      assert [prefix[0]] + prefix[1..] == prefix;
    }
  }

  /** A known-hosts line determines the key it was made from (key types contain no space). */
  lemma KnownHostsRoundTrip(key: PublicKey)
    requires forall i | 0 <= i < |key.keyType| :: key.keyType[i] != ' '
    ensures ParseKnownHosts(FormatKnownHosts(key)) == Some(key)
  {
    SplitAtFirstSpace(key.keyType, Base64.Encode(key.wire));
    Base64.DecodeEncode(key.wire);
  }
}
