/** The deterministic name of a temporary server, by which a lost create is found again. */
module Names {
  import opened Text

  predicate Plain(c: char) {
    'a' <= c <= 'z' || IsDigit(c) || c == '-'
  }

  function Lower(c: char): char {
    if 'A' <= c <= 'Z' then (c as int + 32) as char else c
  }

  /** Every run of other characters becomes one dash. */
  function Dashed(s: string, after: bool): (r: string)
    ensures AllPlain(r)
  {
    if s == "" then ""
    else if Plain(Lower(s[0])) then [Lower(s[0])] + Dashed(s[1..], false)
    else (if after then "" else "-") + Dashed(s[1..], true)
  }

  function TrimLeft(s: string): (r: string)
    ensures r == "" || r[0] != '-'
    ensures |r| <= |s| && r == s[|s| - |r|..]
  {
    if s == "" || s[0] != '-' then s else TrimLeft(s[1..])
  }

  function TrimRight(s: string): (r: string)
    ensures r == "" || r[|r| - 1] != '-'
    ensures |r| <= |s| && r == s[..|r|] && (s != "" && s[0] != '-' ==> r != "")
  {
    if s == "" || s[|s| - 1] != '-' then s else TrimRight(s[..|s| - 1])
  }

  predicate AllPlain(s: string) { forall i :: 0 <= i < |s| ==> Plain(s[i]) }

  /** The dashed name without dashes at its ends; a name with nothing else in it is called node. */
  function Safe(name: string): (r: string)
    ensures r != "" && AllPlain(r) && r[0] != '-'
  {
    var left := TrimLeft(Dashed(name, false));
    var trimmed := TrimRight(left);
    if trimmed == "" then "node" else trimmed
  }

  /** At most 32 plain characters, never empty, no dash at either end. */
  function Slug(name: string): (r: string)
    ensures 1 <= |r| <= 32 && AllPlain(r) && r[0] != '-' && r[|r| - 1] != '-'
  {
    var safe := Safe(name);
    TrimRight(if |safe| > 32 then safe[..32] else safe)
  }

  lemma {:induction false} DashedKeeps(s: string, after: bool)
    requires AllPlain(s)
    ensures Dashed(s, after) == s
  {
    if s != "" {
      DashedKeeps(s[1..], false);
      assert s == [s[0]] + s[1..];
    }
  }

  predicate IsSlug(s: string) {
    1 <= |s| <= 32 && AllPlain(s) && s[0] != '-' && s[|s| - 1] != '-'
  }

  lemma SlugKeeps(s: string)
    requires IsSlug(s)
    ensures Slug(s) == s
  {
    DashedKeeps(s, false);
    hide Dashed, Plain;
    assert TrimLeft(s) == s && TrimRight(s) == s;
  }

  /**
   A name of at most 32 plain characters without a dash at either end is kept as it is, and no other name is.
   */
  lemma SlugKeepsNames(name: string)
    ensures Slug(name) == name <==> IsSlug(name)
    ensures Slug(Slug(name)) == Slug(name)
  {
    hide Slug, AllPlain;
    SlugKeeps(Slug(name));
    if IsSlug(name) {
      SlugKeeps(name);
    }
  }

  lemma {:induction false} RunVanishes(junk: string, rest: string)
    requires forall i :: 0 <= i < |junk| ==> !Plain(Lower(junk[i]))
    requires rest == "" || Plain(Lower(rest[0]))
    ensures Dashed(junk + rest, true) == Dashed(rest, false)
  {
    if junk == "" {
      assert junk + rest == rest;
    } else {
      assert (junk + rest)[1..] == junk[1..] + rest;
      RunVanishes(junk[1..], rest);
    }
  }

  /** A whole run of other characters between two stretches of plain ones becomes one dash. */
  lemma {:induction false} RunsBecomeDashes(head: string, junk: string, rest: string)
    requires junk != "" && forall i :: 0 <= i < |junk| ==> !Plain(Lower(junk[i]))
    requires forall i :: 0 <= i < |head| ==> Plain(Lower(head[i]))
    requires rest == "" || Plain(Lower(rest[0]))
    ensures Dashed(head + junk + rest, false) == Dashed(head, false) + "-" + Dashed(rest, false)
  {
    if head == "" {
      assert head + junk + rest == junk + rest && (junk + rest)[1..] == junk[1..] + rest;
      RunVanishes(junk[1..], rest);
    } else {
      assert (head + junk + rest)[1..] == head[1..] + junk + rest;
      RunsBecomeDashes(head[1..], junk, rest);
    }
  }

  function FullName(name: string, hex: string, attempt: nat): string {
    "aso-" + Slug(name) + "-" + hex + "-a" + Decimal(attempt)
  }

  /** What the provider is asked to create: the first 63 characters. */
  function ServerName(name: string, hex: string, attempt: nat): string {
    var full := FullName(name, hex, attempt);
    if |full| > 63 then full[..63] else full
  }

  predicate JobHex(hex: string) {
    |hex| == 8 && forall i :: 0 <= i < 8 ==> IsDigit(hex[i]) || 'a' <= hex[i] <= 'f'
  }

  /** Names are never cut for any attempt below ten to the sixteenth, however long the node's name. */
  lemma NamesAreWhole(name: string, hex: string, attempt: nat)
    requires JobHex(hex)
    ensures ServerName(name, hex, attempt) == FullName(name, hex, attempt) <==> |Slug(name)| + |Decimal(attempt)| <= 48
    ensures attempt < Power(16) ==> ServerName(name, hex, attempt) == FullName(name, hex, attempt)
  {
    DecimalLength(attempt, 16);
    assert |FullName(name, hex, attempt)| == 15 + |Slug(name)| + |Decimal(attempt)|;
  }

  lemma AttemptShows(x: string, a1: nat, y: string, a2: nat)
    requires x + "-a" + Decimal(a1) == y + "-a" + Decimal(a2)
    ensures x == y && a1 == a2
  {
    var d1, d2 := "a" + Decimal(a1), "a" + Decimal(a2);
    assert x + ['-'] + d1 == x + "-a" + Decimal(a1) && y + ['-'] + d2 == y + "-a" + Decimal(a2);
    LastSeparatorSplits(x, y, '-', d1, d2);
    assert Decimal(a1) == d1[1..] && Decimal(a2) == d2[1..];
    DecimalIsInjective(a1, a2);
  }

  lemma JobShows(x: string, h1: string, y: string, h2: string)
    requires JobHex(h1) && JobHex(h2) && x + "-" + h1 == y + "-" + h2
    ensures x == y && h1 == h2
  {
    LastSeparatorSplits(x, y, '-', h1, h2);
  }

  /** Two names agree exactly when slug, job prefix and attempt all agree. */
  lemma NamesAreDistinct(n1: string, h1: string, a1: nat, n2: string, h2: string, a2: nat)
    requires JobHex(h1) && JobHex(h2) && a1 < Power(16) && a2 < Power(16)
    ensures ServerName(n1, h1, a1) == ServerName(n2, h2, a2) <==> Slug(n1) == Slug(n2) && h1 == h2 && a1 == a2
  {
    NamesAreWhole(n1, h1, a1);
    NamesAreWhole(n2, h2, a2);
    hide Slug, Decimal, Power;
    if ServerName(n1, h1, a1) == ServerName(n2, h2, a2) {
      AttemptShows("aso-" + Slug(n1) + "-" + h1, a1, "aso-" + Slug(n2) + "-" + h2, a2);
      JobShows("aso-" + Slug(n1), h1, "aso-" + Slug(n2), h2);
      assert Slug(n1) == ("aso-" + Slug(n1))[4..] && Slug(n2) == ("aso-" + Slug(n2))[4..];
    }
  }
}
