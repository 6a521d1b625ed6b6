/** The managed known_hosts file as an implementation of a map from host and port to a trusted key. */
module KnownHosts {
  import opened Types
  import opened Text

  predicate IsSpace(c: char) { c == ' ' || c == '\t' || c == '\n' || c == '\r' }

  /** The token under which a host is filed; only port 22 is left implicit. */
  function HostToken(host: string, port: nat): string {
    if port == 22 then host else "[" + host + "]:" + Decimal(port)
  }

  /** The hosts the file format can carry. */
  predicate WellFormed(host: string) {
    && host != "" && host[0] != '#' && host[0] != '@' && host[0] != '['
    && forall i :: 0 <= i < |host| ==> !IsSpace(host[i]) && host[i] != ','
  }

  /** An exported public key: something on one line, with nothing to strip. */
  predicate IsKey(key: string) {
    key != "" && !IsSpace(key[0]) && !IsSpace(key[|key| - 1])
  }

  function Entry(token: string, key: string): string { token + " " + key }

  // ---- Reading a line ----

  function StripLeft(s: string): string { if s != "" && IsSpace(s[0]) then StripLeft(s[1..]) else s }

  function StripRight(s: string): string {
    if s != "" && IsSpace(s[|s| - 1]) then StripRight(s[..|s| - 1]) else s
  }

  function Strip(s: string): string { StripRight(StripLeft(s)) }

  /** The characters before the first white space. */
  function FirstField(s: string): string {
    if s == "" || IsSpace(s[0]) then "" else [s[0]] + FirstField(s[1..])
  }

  /** What follows the first field, without the white space between. */
  function Rest(s: string): string { StripLeft(s[|s| - |AfterField(s)|..]) }

  function AfterField(s: string): (r: string)
    ensures |r| <= |s|
  {
    if s == "" || IsSpace(s[0]) then s else AfterField(s[1..])
  }

  /** Whether a token is one of the comma-separated names of a field. */
  predicate Lists(field: string, token: string) {
    if ',' !in field then field == token
    else
      var i := FirstComma(field);
      field[..i] == token || Lists(field[i + 1..], token)
  }

  function FirstComma(s: string): (i: nat)
    requires ',' in s
    ensures i < |s| && s[i] == ','
  {
    if s[0] == ',' then 0 else 1 + FirstComma(s[1..])
  }

  predicate Ignored(line: string) { line == "" || line[0] == '#' || line[0] == '@' }

  /** The key a line gives for a token; a line with a single field gives none. */
  function KeyOn(raw: string, token: string): Option<string> {
    var line := Strip(raw);
    if Ignored(line) || Rest(line) == "" || !Lists(FirstField(line), token) then None else Some(Rest(line))
  }

  /** Whether a rewrite for a token keeps a line. */
  predicate KeptBy(line: string, token: string) {
    var stripped := StripLeft(line);
    stripped == "" || stripped[0] == '#' || FirstField(stripped) != token
  }

  // ---- The file ----

  class ManagedFile {
    var lines: seq<string>

    constructor ()
      ensures lines == []
    {
      lines := [];
    }

    /** Drops the lines of the token and appends the new entry; the whole file is replaced at once. */
    method WriteCandidate(host: string, port: nat, key: string)
      modifies this
      ensures lines == Written(old(lines), HostToken(host, port), key)
    {
      var token := HostToken(host, port);
      var kept := [];
      var i := 0;
      while i < |lines|
        invariant 0 <= i <= |lines| && kept == Kept(lines[..i], token) && lines == old(lines)
      {
        assert lines[..i + 1][..i] == lines[..i];
        if KeptBy(lines[i], token) {
          kept := kept + [lines[i]];
        }
        i := i + 1;
      }
      assert lines[..i] == lines;
      lines := kept + [Entry(token, key)];
    }

    /** Collects the keys filed under the token; two different ones are an error. */
    method LoadTrustedKey(host: string, port: nat) returns (r: Result<Option<string>>)
      ensures r == Loaded(lines, HostToken(host, port))
    {
      var token := HostToken(host, port);
      var found: set<string> := {};
      var i := 0;
      while i < |lines|
        invariant 0 <= i <= |lines| && found == KeysFor(lines[..i], token)
      {
        assert lines[..i + 1][..i] == lines[..i];
        var key := KeyOn(lines[i], token);
        if key.Some? {
          found := found + {key.value};
        }
        i := i + 1;
      }
      assert lines[..i] == lines;
      if found == {} {
        return Success(None);
      }
      if |found| != 1 {
        return Failure;
      }
      var only :| only in found;
      OnlyElement(found, only);
      return Success(Some(only));
    }
  }

  lemma OnlyElement(s: set<string>, x: string)
    requires |s| == 1 && x in s
    ensures s == {x}
  {
    assert s == {x} + (s - {x});
  }

  function Kept(lines: seq<string>, token: string): seq<string> {
    if lines == [] then []
    else
      var front := Kept(lines[..|lines| - 1], token);
      if KeptBy(lines[|lines| - 1], token) then front + [lines[|lines| - 1]] else front
  }

  function Written(lines: seq<string>, token: string, key: string): seq<string> {
    Kept(lines, token) + [Entry(token, key)]
  }

  function KeysFor(lines: seq<string>, token: string): set<string> {
    if lines == [] then {}
    else
      var front := KeysFor(lines[..|lines| - 1], token);
      var key := KeyOn(lines[|lines| - 1], token);
      if key.Some? then front + {key.value} else front
  }

  ghost function Loaded(lines: seq<string>, token: string): Result<Option<string>> {
    var keys := KeysFor(lines, token);
    if keys == {} then Success(None)
    else if |keys| != 1 then Failure
    else var only :| only in keys; Success(Some(only))
  }

  // ---- It implements a map ----

  datatype Trust = Trust(host: string, port: nat, key: string)

  predicate ProperTrust(t: Trust) { WellFormed(t.host) && IsKey(t.key) }

  function AfterAll(ts: seq<Trust>): seq<string> {
    if ts == [] then []
    else
      var t := ts[|ts| - 1];
      Written(AfterAll(ts[..|ts| - 1]), HostToken(t.host, t.port), t.key)
  }

  /** The map the file stands for. */
  function Meaning(ts: seq<Trust>): map<(string, nat), string> {
    if ts == [] then map[]
    else
      var t := ts[|ts| - 1];
      Meaning(ts[..|ts| - 1])[(t.host, t.port) := t.key]
  }

  predicate ProperToken(token: string) {
    && token != "" && token[0] != '#' && token[0] != '@'
    && forall i :: 0 <= i < |token| ==> !IsSpace(token[i]) && token[i] != ','
  }

  lemma TokenIsProper(host: string, port: nat)
    requires WellFormed(host)
    ensures ProperToken(HostToken(host, port))
  {
    var d := Decimal(port);
    forall i | 0 <= i < |d| ensures !IsSpace(d[i]) && d[i] != ',' {
      assert IsDigit(d[i]);
    }
  }

  /** Different endpoints are filed under different tokens. */
  lemma TokensAreDistinct(h1: string, p1: nat, h2: string, p2: nat)
    requires WellFormed(h1) && WellFormed(h2) && HostToken(h1, p1) == HostToken(h2, p2)
    ensures h1 == h2 && p1 == p2
  {
    assert (p1 != 22 ==> HostToken(h1, p1)[0] == '[') && (p2 != 22 ==> HostToken(h2, p2)[0] == '[');
    if p1 != 22 && p2 != 22 {
      var a, b := "[" + h1 + "]", "[" + h2 + "]";
      assert HostToken(h1, p1) == a + [':'] + Decimal(p1) && HostToken(h2, p2) == b + [':'] + Decimal(p2);
      LastSeparatorSplits(a, b, ':', Decimal(p1), Decimal(p2));
      DecimalIsInjective(p1, p2);
      assert h1 == a[1..|a| - 1] && h2 == b[1..|b| - 1];
    }
  }

  lemma {:induction false} FieldOfEntry(token: string, key: string)
    requires (forall i :: 0 <= i < |token| ==> !IsSpace(token[i])) && IsKey(key)
    ensures FirstField(Entry(token, key)) == token && AfterField(Entry(token, key)) == " " + key
  {
    if token != "" {
      assert Entry(token, key)[1..] == Entry(token[1..], key);
      FieldOfEntry(token[1..], key);
    } else {
      assert Entry(token, key) == " " + key;
    }
  }

  lemma EntryReads(token: string, key: string, other: string)
    requires ProperToken(token) && IsKey(key)
    ensures KeyOn(Entry(token, key), other) == if other == token then Some(key) else None
    ensures KeptBy(Entry(token, key), other) <==> other != token
  {
    var e := Entry(token, key);
    FieldOfEntry(token, key);
    assert e[0] == token[0] && e[|e| - 1] == key[|key| - 1];
    assert StripLeft(e) == e && StripRight(e) == e;
    assert e[|e| - |AfterField(e)|..] == " " + key;
    assert (" " + key)[1..] == key && StripLeft(key) == key;
  }

  /** What the file gives for every token. */
  ghost predicate Reads(lines: seq<string>, token: string, key: Option<string>) {
    && KeysFor(lines, token) == (if key.Some? then {key.value} else {})
    && (forall i :: 0 <= i < |lines| ==> exists t, k :: ProperToken(t) && IsKey(k) && lines[i] == Entry(t, k))
  }

  lemma {:induction false} KeptReads(lines: seq<string>, token: string, other: string)
    requires forall i :: 0 <= i < |lines| ==> exists t, k :: ProperToken(t) && IsKey(k) && lines[i] == Entry(t, k)
    ensures KeysFor(Kept(lines, token), other) == if other == token then {} else KeysFor(lines, other)
    ensures forall i :: 0 <= i < |Kept(lines, token)| ==> Kept(lines, token)[i] in lines
  {
    if lines != [] {
      var last := lines[|lines| - 1];
      var t, k :| ProperToken(t) && IsKey(k) && last == Entry(t, k);
      KeptReads(lines[..|lines| - 1], token, other);
      EntryReads(t, k, token);
      EntryReads(t, k, other);
      var front := Kept(lines[..|lines| - 1], token);
      assert (front + [last])[..|front|] == front;
    }
  }

  /**
   After any writes from an empty file a load gives the key last trusted for the endpoint, and nothing
   elsewhere.
   */
  lemma {:induction false} FileIsMap(ts: seq<Trust>, host: string, port: nat)
    requires (forall i :: 0 <= i < |ts| ==> ProperTrust(ts[i])) && WellFormed(host)
    ensures Reads(AfterAll(ts), HostToken(host, port),
                  if (host, port) in Meaning(ts) then Some(Meaning(ts)[(host, port)]) else None)
  {
    if ts != [] {
      var t := ts[|ts| - 1];
      var front, token := AfterAll(ts[..|ts| - 1]), HostToken(host, port);
      var written := HostToken(t.host, t.port);
      FileIsMap(ts[..|ts| - 1], host, port);
      TokenIsProper(t.host, t.port);
      EntryReads(written, t.key, token);
      KeptReads(front, written, token);
      if written == token {
        TokensAreDistinct(t.host, t.port, host, port);
      }
      var kept := Kept(front, written);
      assert (kept + [Entry(written, t.key)])[..|kept|] == kept;
      forall i | 0 <= i < |AfterAll(ts)| ensures exists s, k :: ProperToken(s) && IsKey(k) && AfterAll(ts)[i] == Entry(s, k) {
        if i < |kept| {
          assert kept[i] in front;
        }
      }
    }
  }

  lemma LoadRefinesMap(ts: seq<Trust>, host: string, port: nat)
    requires (forall i :: 0 <= i < |ts| ==> ProperTrust(ts[i])) && WellFormed(host)
    ensures Loaded(AfterAll(ts), HostToken(host, port))
            == Success(if (host, port) in Meaning(ts) then Some(Meaning(ts)[(host, port)]) else None)
  {
    FileIsMap(ts, host, port);
  }

  // ---- Files that others have written to ----

  /** Blank lines, comments and marked lines give no key and outlive every write. */
  lemma CommentsStay(line: string, token: string, other: string)
    requires ProperToken(token)
    requires StripLeft(line) == "" || StripLeft(line)[0] == '#' || StripLeft(line)[0] == '@'
    ensures KeyOn(line, other) == None && KeptBy(line, token)
  {
    var left := StripLeft(line);
    StripRightIsPrefix(left);
    if left != "" && left[0] == '@' && !IsSpace('@') {
      assert FirstField(left)[0] == '@';
    }
  }

  lemma {:induction false} StripRightIsPrefix(s: string)
    ensures StripRight(s) <= s
  {
    if s != "" && IsSpace(s[|s| - 1]) {
      StripRightIsPrefix(s[..|s| - 1]);
    }
  }

  /** The lines a write leaves, and what they say of its token. */
  lemma {:induction false} KeysOfKept(lines: seq<string>, token: string, key: string)
    ensures key in KeysFor(Kept(lines, token), token) <==>
            exists line :: line in lines && KeptBy(line, token) && KeyOn(line, token) == Some(key)
  {
    if lines != [] {
      var front, last := lines[..|lines| - 1], lines[|lines| - 1];
      KeysOfKept(front, token, key);
      assert lines == front + [last];
      var kept := Kept(front, token);
      assert (kept + [last])[..|kept|] == kept;
    }
  }

  /**
   Whatever the file holds, a load after a write gives the key just trusted if and only if no line
   that the write keeps -- one that lists the endpoint beside other names -- gives it another key;
   otherwise the keys are in conflict.
   */
  lemma WrittenIsTrusted(lines: seq<string>, token: string, key: string)
    requires ProperToken(token) && IsKey(key)
    ensures Loaded(Written(lines, token, key), token) == Success(Some(key)) <==>
            forall line :: line in lines && KeptBy(line, token) ==> KeyOn(line, token) in {None, Some(key)}
    ensures Loaded(Written(lines, token, key), token) in {Success(Some(key)), Failure}
  {
    var kept := Kept(lines, token);
    EntryReads(token, key, token);
    assert (kept + [Entry(token, key)])[..|kept|] == kept;
    var keys := KeysFor(Written(lines, token, key), token);
    assert keys == KeysFor(kept, token) + {key};
    forall k: string ensures k in KeysFor(kept, token) <==>
                             exists line :: line in lines && KeptBy(line, token) && KeyOn(line, token) == Some(k)
    {
      KeysOfKept(lines, token, k);
    }
    if |keys| == 1 {
      OnlyElement(keys, key);
    } else {
      assert keys == (keys - {key}) + {key};
      var k :| k in keys - {key};
      assert k in KeysFor(kept, token);
    }
  }
}
