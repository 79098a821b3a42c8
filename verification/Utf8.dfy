/** Texts given character by character, in UTF-8 (RFC 3629). */
module Utf8 {
  import opened Texts
  import opened Sequences

  predicate Continues(c: char) {
    0x80 <= c as int < 0xC0
  }

  /** A lead byte and as many continuation bytes as it calls for. */
  predicate Character(s: string) {
    && s != []
    && (forall k | 1 <= k < |s| :: Continues(s[k]))
    && var b := s[0] as int;
       match |s|
       case 1 => b < 0x80
       case 2 => 0xC0 <= b < 0xE0
       case 3 => 0xE0 <= b < 0xF0
       case 4 => 0xF0 <= b < 0xF8
       case _ => false
  }

  predicate Characters(cs: seq<string>) {
    forall k | 0 <= k < |cs| :: Character(cs[k])
  }

  function TextOf(cs: seq<string>): string {
    if cs == [] then "" else cs[0] + TextOf(cs[1..])
  }

  /** How many of the characters take more than one byte. */
  function Wide(cs: seq<string>): nat {
    if cs == [] then 0 else (if |cs[0]| > 1 then 1 else 0) + Wide(cs[1..])
  }

  lemma {:induction false} TextOfAppend(a: seq<string>, b: seq<string>)
    ensures TextOf(a + b) == TextOf(a) + TextOf(b)
  {
    if a == [] {
      Ends(b);
    } else {
      ConsAppend(a, b);
      TextOfAppend(a[1..], b);
      Assoc(a[0], TextOf(a[1..]), TextOf(b));
    }
  }

  lemma TextOfOne(c: string)
    ensures TextOf([c]) == c
  {
    assert [c][1..] == [];
  }

  lemma {:induction false} WideBound(cs: seq<string>)
    ensures Wide(cs) <= |cs|
  {
    if cs != [] {
      WideBound(cs[1..]);
    }
  }

  lemma CharactersOf(cs: seq<string>, k: nat)
    requires Characters(cs) && k <= |cs|
    ensures Characters(cs[..k]) && Characters(cs[k..])
  {
  }

  /** The text at a character. */
  lemma TextSplit(cs: seq<string>, k: nat)
    requires k <= |cs|
    ensures TextOf(cs) == TextOf(cs[..k]) + TextOf(cs[k..]) && |TextOf(cs[..k])| <= |TextOf(cs)|
    ensures TextOf(cs)[..|TextOf(cs[..k])|] == TextOf(cs[..k]) && TextOf(cs)[|TextOf(cs[..k])|..] == TextOf(cs[k..])
  {
    assert cs == cs[..k] + cs[k..];
    TextOfAppend(cs[..k], cs[k..]);
  }

  lemma TextStep(cs: seq<string>, k: nat)
    requires k < |cs|
    ensures TextOf(cs[..k + 1]) == TextOf(cs[..k]) + cs[k] && TextOf(cs[k..]) == cs[k] + TextOf(cs[k + 1..])
  {
    PrefixStep(cs, k);
    SuffixStep(cs, k);
    TextOfAppend(cs[..k], [cs[k]]);
    TextOfOne(cs[k]);
  }
}
