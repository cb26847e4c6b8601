/** The download file name of the flyer preview (FlyerPreview.tsx, line 66):
    `name.replace(/[^a-z0-9]/gi, '_').toLowerCase() || 'flyer'`. */
module FileName {

  /** What the case-insensitive class `[a-z0-9]` matches. Without the `u`
      flag no character outside ASCII folds onto `a`-`z`, so the class is
      exactly the ASCII letters of either case and the digits. */
  predicate IsAsciiAlnum(c: char) {
    'a' <= c <= 'z' || 'A' <= c <= 'Z' || '0' <= c <= '9'
  }

  /** The alphabet of a sanitised name. */
  predicate IsSafeChar(c: char) {
    'a' <= c <= 'z' || '0' <= c <= '9' || c == '_'
  }

  /** The lower-case form of one ASCII character; anything else is kept. */
  function LowerAscii(c: char): char {
    if 'A' <= c <= 'Z' then (c as int + 32) as char else c
  }

  /** What one character of the name becomes in the sanitised name. */
  function SanitizedChar(c: char): char {
    if IsAsciiAlnum(c) then LowerAscii(c) else '_'
  }

  /** `s.replace(/[^a-z0-9]/gi, '_')`: every character outside the class
      becomes `_`, one for one. */
  function ReplaceNonAlnum(s: string): (r: string)
    ensures |r| == |s|
    ensures forall i :: 0 <= i < |s| ==> r[i] == (if IsAsciiAlnum(s[i]) then s[i] else '_')
  {
    if s == [] then [] else [if IsAsciiAlnum(s[0]) then s[0] else '_'] + ReplaceNonAlnum(s[1..])
  }

  /** `s.toLowerCase()` on a string of ASCII characters, which is all the
      replacement leaves. */
  function ToLowerAscii(s: string): (r: string)
    ensures |r| == |s|
    ensures forall i :: 0 <= i < |s| ==> r[i] == LowerAscii(s[i])
  {
    if s == [] then [] else [LowerAscii(s[0])] + ToLowerAscii(s[1..])
  }

  /** The base name both exports save under. An empty event name gives
      `flyer`; any other name keeps its length, position by position:
      ASCII letters lower-cased, digits kept, everything else `_`. */
  function SafeName(name: string): (r: string)
    ensures name == "" ==> r == "flyer"
    ensures name != "" ==> |r| == |name| &&
                           forall i :: 0 <= i < |name| ==> r[i] == SanitizedChar(name[i])
    ensures forall i :: 0 <= i < |r| ==> IsSafeChar(r[i])
  {
    var lowered := ToLowerAscii(ReplaceNonAlnum(name));
    if lowered == "" then "flyer" else lowered
  }

  /** Sanitising a sanitised name changes nothing. */
  lemma {:induction false} SafeNameIdempotent(name: string)
    ensures SafeName(SafeName(name)) == SafeName(name)
  {
    var r := SafeName(name);
    assert r != "";
    var rr := SafeName(r);
    forall i | 0 <= i < |r| ensures rr[i] == r[i] {
      assert IsSafeChar(r[i]);
    }
  }

  /** A name is sanitised to `e` when `e` spells it out position by position. */
  lemma SpelledOut(n: string, e: string)
    requires n != "" && |e| == |n|
    requires forall i :: 0 <= i < |n| ==> e[i] == SanitizedChar(n[i])
    ensures SafeName(n) == e
  {
  }
}

/** Worked examples of the download file name. */
module FileNameExamples {
  import opened FileName

  /** A worked example: `"My Event! 2024"` saves as
      `my_event__2024`. */
  lemma MyEventExample()
    ensures SafeName("My Event! 2024") == "my_event__2024"
  {
    SpelledOut("My Event! 2024", "my_event__2024");
  }

  /** A name made only of symbols is not empty, so it becomes underscores
      and does not fall back to `flyer`. */
  lemma SymbolsOnlyExample()
    ensures SafeName("!?") == "__"
  {
    SpelledOut("!?", "__");
  }
}
