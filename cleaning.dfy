/**
 * The per-cell text cleaner `clean_string` (app.py:107-120) and the prefix
 * truncation that the varchar conversion applies after it (app.py:144-147).
 *
 * Python's `str.isprintable` and the whitespace set of `str.strip` come from
 * the Unicode database; the model takes them as the two fields of a
 * `CharClasses` value, so every property below holds whatever that database
 * says. Where a property needs concrete facts about ASCII characters, it
 * requires `AsciiConventional`.
 *
 * The `encode('utf-8', errors='ignore').decode(...)` step of app.py:115 only
 * drops lone surrogates; a Dafny `char` is a Unicode scalar value, so on the
 * strings of this model that step is the identity and has no counterpart here.
 */
module Cleaning {
  import opened Seqs
  import opened Cells
  import opened Counting

  /** Python's character classes: `c.isprintable()` and "`strip` removes c". */
  datatype CharClasses = CharClasses(isPrintable: char -> bool, isSpace: char -> bool)

  /** What Python's Unicode tables say about ASCII. */
  predicate AsciiConventional(u: CharClasses)
  {
    (forall c: char :: '!' <= c <= '~' ==> u.isPrintable(c)) &&
    (forall c: char :: '!' <= c <= '~' ==> !u.isSpace(c)) &&
    (forall c: char :: c < ' ' ==> !u.isPrintable(c)) &&
    u.isPrintable(' ') && u.isSpace(' ') &&
    u.isSpace('\n') && u.isSpace('\r') && u.isSpace('\t')
  }

  /** A character the cleaner keeps: a printable one, or a line break or tab. */
  predicate Kept(u: CharClasses, c: char)
  {
    u.isPrintable(c) || c == '\n' || c == '\r' || c == '\t'
  }

  predicate AllKept(u: CharClasses, s: string)
  {
    forall i :: 0 <= i < |s| ==> Kept(u, s[i])
  }

  /** The generator comprehension of app.py:117: drop every character that is not kept. */
  function KeepPrintable(u: CharClasses, s: string): string
    decreases |s|
  {
    if s == [] then []
    else if Kept(u, s[0]) then [s[0]] + KeepPrintable(u, s[1..])
    else KeepPrintable(u, s[1..])
  }

  /**
   * The filter keeps exactly the kept characters, in their order: its result
   * is a subsequence of the input made of kept characters only, as long as
   * the number of kept characters of the input (so every kept occurrence
   * survives), and the input comes back unchanged exactly when it has
   * nothing to drop.
   */
  lemma {:induction false} KeepPrintableSpec(u: CharClasses, s: string)
    ensures AllKept(u, KeepPrintable(u, s))
    ensures IsSubsequence(KeepPrintable(u, s), s)
    ensures |KeepPrintable(u, s)| == Count(s, c => Kept(u, c))
    ensures forall c :: c in KeepPrintable(u, s) <==> c in s && Kept(u, c)
    ensures KeepPrintable(u, s) == s <==> AllKept(u, s)
    decreases |s|
  {
    if s != [] {
      var rest := KeepPrintable(u, s[1..]);
      KeepPrintableSpec(u, s[1..]);
      assert s == [s[0]] + s[1..];
      CountCons(s[0], s[1..], c => Kept(u, c));
      assert forall c :: c in s <==> c == s[0] || c in s[1..];
      if Kept(u, s[0]) {
        assert ([s[0]] + rest)[1..] == rest;
        assert AllKept(u, s[1..]) ==> AllKept(u, s);
      } else {
        assert IsSubsequence(rest, s[1..]) && |rest| < |s|;
      }
    }
  }

  /** Number of leading characters of `s` that `strip` removes. */
  function LeadingSpaces(u: CharClasses, s: string): (k: nat)
    ensures k <= |s|
    decreases |s|
  {
    if s == [] || !u.isSpace(s[0]) then 0 else 1 + LeadingSpaces(u, s[1..])
  }

  /** The leading characters counted are whitespace, and the next one is not. */
  lemma {:induction false} LeadingSpacesSpec(u: CharClasses, s: string)
    ensures forall i :: 0 <= i < LeadingSpaces(u, s) ==> u.isSpace(s[i])
    ensures LeadingSpaces(u, s) < |s| ==> !u.isSpace(s[LeadingSpaces(u, s)])
    decreases |s|
  {
    if s != [] && u.isSpace(s[0]) {
      LeadingSpacesSpec(u, s[1..]);
      assert forall i :: 1 <= i < |s| ==> s[i] == s[1..][i - 1];
    }
  }

  /** Index at which the trailing characters that `strip` removes begin. */
  function TrailingStart(u: CharClasses, s: string): (k: nat)
    ensures k <= |s|
    decreases |s|
  {
    if s == [] || !u.isSpace(s[|s| - 1]) then |s| else TrailingStart(u, s[..|s| - 1])
  }

  /** The characters from the index on are whitespace, and the one before it is not. */
  lemma {:induction false} TrailingStartSpec(u: CharClasses, s: string)
    ensures forall i :: TrailingStart(u, s) <= i < |s| ==> u.isSpace(s[i])
    ensures TrailingStart(u, s) > 0 ==> !u.isSpace(s[TrailingStart(u, s) - 1])
    decreases |s|
  {
    if s != [] && u.isSpace(s[|s| - 1]) {
      TrailingStartSpec(u, s[..|s| - 1]);
    }
  }

  /** No whitespace at either end. */
  predicate Trimmed(u: CharClasses, s: string)
  {
    s == [] || (!u.isSpace(s[0]) && !u.isSpace(s[|s| - 1]))
  }

  /** `str.strip()`: the middle of `s` left after removing whitespace at both ends. */
  function Strip(u: CharClasses, s: string): string
  {
    var t := s[LeadingSpaces(u, s)..];
    t[..TrailingStart(u, t)]
  }

  /**
   * `strip` removes whitespace only, and all of it at both ends: its result
   * is a slice of the input with whitespace before and after it, and the
   * input comes back unchanged exactly when its ends are not whitespace.
   */
  lemma StripSpec(u: CharClasses, s: string)
    ensures Trimmed(u, Strip(u, s))
    ensures exists i, j :: 0 <= i <= j <= |s| && Strip(u, s) == s[i..j] &&
                           (forall k :: 0 <= k < i ==> u.isSpace(s[k])) &&
                           (forall k :: j <= k < |s| ==> u.isSpace(s[k]))
    ensures Strip(u, s) == s <==> Trimmed(u, s)
  {
    var i := LeadingSpaces(u, s);
    var t := s[i..];
    var j := TrailingStart(u, t);
    LeadingSpacesSpec(u, s);
    TrailingStartSpec(u, t);
    assert t[..j] == s[i..i + j];
    assert forall k :: i + j <= k < |s| ==> s[k] == t[k - i];
    assert i == |s| ==> t == [];
  }

  /** `clean_string(value)`, app.py:107-120. */
  function CleanString(u: CharClasses, c: Cell): string
  {
    if c.Missing? then "" else Strip(u, KeepPrintable(u, Str(c)))
  }

  /**
   * A missing value cleans to the empty string; any other value to a
   * subsequence of its text made of kept characters only, with no whitespace
   * at either end.
   */
  lemma CleanStringSpec(u: CharClasses, c: Cell)
    ensures c.Missing? ==> CleanString(u, c) == ""
    ensures AllKept(u, CleanString(u, c))
    ensures Trimmed(u, CleanString(u, c))
    ensures IsSubsequence(CleanString(u, c), Str(c)) && |CleanString(u, c)| <= |Str(c)|
  {
    if !c.Missing? {
      var kept := KeepPrintable(u, Str(c));
      var r := Strip(u, kept);
      KeepPrintableSpec(u, Str(c));
      StripSpec(u, kept);
      var i, j :| 0 <= i <= j <= |kept| && r == kept[i..j];
      SliceIsSubsequence(kept, i, j);
      SubsequenceTransitive(r, kept, Str(c));
      assert forall k :: 0 <= k < |r| ==> r[k] == kept[i + k];
    }
  }

  /** Cleaning a text that is already clean changes nothing. */
  lemma CleanTextOfCleanIsIdentity(u: CharClasses, s: string)
    requires AllKept(u, s) && Trimmed(u, s)
    ensures CleanString(u, Text(s)) == s
  {
    KeepPrintableSpec(u, s);
    StripSpec(u, s);
  }

  /** Cleaning is idempotent: a cleaned value passes a second cleaning unchanged. */
  lemma CleanStringIdempotent(u: CharClasses, c: Cell)
    ensures CleanString(u, Text(CleanString(u, c))) == CleanString(u, c)
  {
    CleanStringSpec(u, c);
    CleanTextOfCleanIsIdentity(u, CleanString(u, c));
  }

  /**
   * A text is changed by cleaning exactly when it holds a character that is
   * dropped or starts or ends with whitespace (even if every character is
   * valid).
   */
  lemma CleanChangesIff(u: CharClasses, s: string)
    ensures CleanString(u, Text(s)) != s <==> !AllKept(u, s) || !Trimmed(u, s)
  {
    CleanStringSpec(u, Text(s));
    if AllKept(u, s) {
      KeepPrintableSpec(u, s);
      StripSpec(u, s);
    } else {
      var r := CleanString(u, Text(s));
      var i :| 0 <= i < |s| && !Kept(u, s[i]);
      assert s[i] !in r;
    }
  }

  /**
   * The `.str[:max_len]` step of app.py:144-147: with a positive limit, a
   * longer text is cut to exactly `max_len` characters; otherwise the text is
   * left alone.
   */
  function Truncate(s: string, maxLen: Option<int>): (r: string)
    ensures r <= s
    ensures maxLen.Some? && maxLen.value > 0 ==> |r| <= maxLen.value
    ensures maxLen.Some? && maxLen.value > 0 && |s| > maxLen.value ==> |r| == maxLen.value
    ensures r == s <==> !(maxLen.Some? && maxLen.value > 0 && |s| > maxLen.value)
  {
    if maxLen.Some? && maxLen.value > 0 then
      s[..if |s| < maxLen.value then |s| else maxLen.value]
    else
      s
  }
}
