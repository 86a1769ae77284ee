/** `FileSummarizerFactory.get_summarizer`: which summarizer a file name selects. */
module FileSummarizerFactory {
  import opened Wrappers
  import opened Strings

  datatype Summarizer = PdfSummarizer | ImageSummarizer | TextSummarizer

  const PdfSuffix := ".pdf"
  const ImageSuffixes: seq<string> := [".png", ".jpg", ".jpeg", ".bmp", ".tiff"]

  /** `s.endswith(suffixes)` with a tuple of suffixes. */
  predicate EndsWithAny(s: string, suffixes: seq<string>) {
    exists i :: 0 <= i < |suffixes| && EndsWith(s, suffixes[i])
  }

  /** A PDF name ends in ".pdf" and an image name in one of the image suffixes, whatever the
      case of its letters; everything else, a missing or empty name included, is read as text. */
  function GetSummarizer(fileName: Option<string>): (r: Summarizer)
    ensures fileName.None? || fileName.value == [] ==> r == TextSummarizer
    ensures r == PdfSummarizer <==> fileName.Some? && EndsWith(ToLower(fileName.value), PdfSuffix)
    ensures r == ImageSummarizer <==>
              fileName.Some? && !EndsWith(ToLower(fileName.value), PdfSuffix)
              && EndsWithAny(ToLower(fileName.value), ImageSuffixes)
  {
    if fileName.Some? && fileName.value != [] then ByLowerCaseName(ToLower(fileName.value)) else TextSummarizer
  }

  /** The suffix comparisons, on the lower-case name. */
  function ByLowerCaseName(lower: string): Summarizer {
    if EndsWith(lower, PdfSuffix) then PdfSummarizer
    else if EndsWithAny(lower, ImageSuffixes) then ImageSummarizer
    else TextSummarizer
  }

  /** A name and its lower-case form select the same summarizer. */
  lemma LowerCaseSameSummarizer(name: string)
    ensures GetSummarizer(Some(ToLower(name))) == GetSummarizer(Some(name))
  {
    ToLowerIdempotent(name);
  }

  /** The choice depends only on the last five characters of the name (the longest suffix
      checked), so any directory or stem in front of them is irrelevant. */
  lemma DependsOnlyOnEnding(stem: string, name: string)
    requires |name| >= 5
    ensures GetSummarizer(Some(stem + name)) == GetSummarizer(Some(name))
  {
    var l, m := ToLower(stem + name), ToLower(name);
    LowerOfJoined(stem, name);
    SameDecision(l, m);
  }

  /** Texts that agree on their last five or more characters get the same summarizer. */
  lemma SameDecision(l: string, m: string)
    requires 5 <= |m| <= |l|
    requires l[|l| - |m|..] == m
    ensures ByLowerCaseName(l) == ByLowerCaseName(m)
  {
    SameEnding(l, m, PdfSuffix);
    SameImageEnding(l, m);
  }

  /** Texts that agree on their last five or more characters agree on every image suffix. */
  lemma SameImageEnding(l: string, m: string)
    requires 5 <= |m| <= |l|
    requires l[|l| - |m|..] == m
    ensures EndsWithAny(l, ImageSuffixes) <==> EndsWithAny(m, ImageSuffixes)
  {
    forall i | 0 <= i < |ImageSuffixes|
      ensures EndsWith(l, ImageSuffixes[i]) <==> EndsWith(m, ImageSuffixes[i])
    {
      SameEnding(l, m, ImageSuffixes[i]);
    }
  }

  /** Lower-casing works character by character, so the lower-case form of a name ends with
      the lower-case form of its last part. */
  lemma LowerOfJoined(stem: string, name: string)
    ensures ToLower(stem + name)[|stem|..] == ToLower(name)
  {
    var l := ToLower(stem + name);
    forall j | 0 <= j < |name|
      ensures l[|stem|..][j] == ToLower(name)[j]
    {
      assert (stem + name)[|stem| + j] == name[j];
    }
  }

  /** Two texts that agree on their last |m| characters agree on every suffix no longer. */
  lemma SameEnding(l: string, m: string, suffix: string)
    requires |suffix| <= 5 <= |m| <= |l|
    requires l[|l| - |m|..] == m
    ensures EndsWith(l, suffix) <==> EndsWith(m, suffix)
  {
    var a, b := l[|l| - |suffix|..], m[|m| - |suffix|..];
    forall k | 0 <= k < |suffix|
      ensures a[k] == b[k]
    {
      assert l[|l| - |m|..][|m| - |suffix| + k] == m[|m| - |suffix| + k];
    }
    assert a == b;
  }
}
