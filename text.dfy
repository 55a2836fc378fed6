/**
  Character-level helpers for the text that the mail helper hands to C
  interfaces: the cut a `std::string` suffers when it is passed on as a
  NUL-terminated `c_str()`, the truncation done by `snprintf` into a
  1024-byte buffer, and joining a list of strings with a separator (with
  the splitting that undoes it).
 */
module Text {

  /** The terminating character of a C string. */
  const NUL: char := '\0'

  /** Size of every `char buf[1024]` that the source formats into. */
  const BufferSize: nat := 1024

  /** Longest text such a buffer can hold: one byte is the terminator. */
  const MaxFormatted: nat := BufferSize - 1

  /** The characters a C routine sees of `s` when handed `s.c_str()`:
      everything before the first NUL. */
  function CStr(s: string): (r: string)
    ensures r <= s
    ensures NUL !in r
    ensures |r| < |s| ==> s[|r|] == NUL
    ensures NUL !in s ==> r == s
    decreases |s|
  {
    if |s| == 0 || s[0] == NUL then "" else [s[0]] + CStr(s[1..])
  }

  /** What `snprintf(buf, 1024, ...)` leaves in `buf` when the fully
      formatted text is `formatted`: the longest prefix that fits. */
  function Snprintf(formatted: string): (r: string)
    ensures r <= formatted
    ensures |r| == if |formatted| <= MaxFormatted then |formatted| else MaxFormatted
    ensures NUL !in formatted ==> NUL !in r
  {
    if |formatted| <= MaxFormatted then formatted else formatted[..MaxFormatted]
  }

  /** Formatting into the buffer a prefix followed by text that has itself
      already been through the buffer gives the same result as formatting
      the prefix followed by the whole text: truncating twice is
      truncating once. */
  lemma SnprintfAbsorbs(prefix: string, text: string)
    ensures Snprintf(prefix + Snprintf(text)) == Snprintf(prefix + text)
  {
    var inner := Snprintf(text);
    if |text| > MaxFormatted {
      assert (prefix + inner)[..MaxFormatted] == (prefix + text)[..MaxFormatted] by {
        forall k | 0 <= k < MaxFormatted
          ensures (prefix + inner)[k] == (prefix + text)[k]
        {
          if k >= |prefix| {
            assert (prefix + inner)[k] == inner[k - |prefix|];
          }
        }
      }
    }
  }

  /** `xs` joined with `sep`, built from the left as the source's loops do:
      the first item alone, then separator and item for each further one. */
  function Join(xs: seq<string>, sep: string): (r: string)
    ensures (forall i :: 0 <= i < |xs| ==> NUL !in xs[i]) && NUL !in sep ==> NUL !in r
    decreases |xs|
  {
    if |xs| == 0 then ""
    else if |xs| == 1 then xs[0]
    else Join(xs[..|xs| - 1], sep) + sep + xs[|xs| - 1]
  }

  /** One more item on a line that already holds `prefix` and the join of
      the items before it: the separator goes before every item but the
      first. */
  lemma JoinStep(prefix: string, xs: seq<string>, i: nat, sep: string)
    requires i < |xs|
    ensures prefix + Join(xs[..i + 1], sep)
         == prefix + Join(xs[..i], sep) + (if i == 0 then "" else sep) + xs[i]
  {
    assert xs[..i + 1][..i] == xs[..i];
    if i == 0 {
      assert Join(xs[..i], sep) == "";
    }
  }

  /** Index of the last occurrence of `c` in `s`, or -1 if there is none. */
  function LastIndexOf(s: string, c: char): (k: int)
    ensures -1 <= k < |s|
    ensures k >= 0 ==> s[k] == c
    ensures forall j :: k < j < |s| ==> s[j] != c
    decreases |s|
  {
    if |s| == 0 then -1
    else if s[|s| - 1] == c then |s| - 1
    else LastIndexOf(s[..|s| - 1], c)
  }

  /** `s` cut at every occurrence of `c`; the reading a mail client gives a
      comma-separated address header. */
  function Split(s: string, c: char): (r: seq<string>)
    ensures |r| >= 1
    decreases |s|
  {
    var k := LastIndexOf(s, c);
    if k < 0 then [s] else Split(s[..k], c) + [s[k + 1..]]
  }

  /** Splitting undoes joining when no item contains the separator. */
  lemma {:induction false} SplitJoin(xs: seq<string>, c: char)
    requires |xs| >= 1
    requires forall i :: 0 <= i < |xs| ==> c !in xs[i]
    ensures Split(Join(xs, [c]), c) == xs
    decreases |xs|
  {
    if |xs| == 1 {
      var s := Join(xs, [c]);
      assert s == xs[0];
      assert LastIndexOf(s, c) < 0;
    } else {
      var init, last := xs[..|xs| - 1], xs[|xs| - 1];
      var j := Join(init, [c]);
      var s := Join(xs, [c]);
      assert s == j + [c] + last;
      var k := LastIndexOf(s, c);
      assert s[|j|] == c;
      assert k == |j|;
      assert s[..k] == j;
      assert s[k + 1..] == last;
      SplitJoin(init, c);
      assert init + [last] == xs;
    }
  }
}
