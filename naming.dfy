/** File names in the output directory. A generated sticker is named by counting
    the names its category's glob already matches; an upload keeps the client's
    file name behind a fixed prefix. */
module Naming {

  const TextPrefix := "generated_sticker_"
  const VoicePrefix := "voice_generated_sticker_"
  const UploadPrefix := "uploaded_"
  const Extension := ".png"

  predicate IsDigit(c: char) {
    '0' <= c <= '9'
  }

  predicate AllDigits(s: string) {
    forall i | 0 <= i < |s| :: IsDigit(s[i])
  }

  function DigitChar(d: nat): (c: char)
    requires d < 10
    ensures IsDigit(c) && c as int - '0' as int == d
  {
    ('0' as int + d) as char
  }

  /** Python's `str(n)` for a natural number: decimal digits, no sign, no
      leading zero except for 0 itself. */
  function Decimal(n: nat): (s: string)
    ensures |s| > 0 && AllDigits(s)
    ensures s[0] == '0' ==> n == 0
    decreases n
  {
    if n < 10 then [DigitChar(n)] else Decimal(n / 10) + [DigitChar(n % 10)]
  }

  /** Reads a string of decimal digits back as the number it denotes. */
  function ParseDecimal(s: string): nat
    requires AllDigits(s)
  {
    if s == [] then 0
    else ParseDecimal(s[..|s| - 1]) * 10 + (s[|s| - 1] as int - '0' as int)
  }

  lemma {:induction false} DecimalRoundTrip(n: nat)
    ensures ParseDecimal(Decimal(n)) == n
    decreases n
  {
    if n >= 10 {
      var s := Decimal(n);
      assert s[..|s| - 1] == Decimal(n / 10);
      DecimalRoundTrip(n / 10);
    }
  }

  /** Distinct numbers print as distinct strings. */
  lemma DecimalInjective(m: nat, n: nat)
    ensures Decimal(m) == Decimal(n) <==> m == n
  {
    if Decimal(m) == Decimal(n) {
      DecimalRoundTrip(m);
      DecimalRoundTrip(n);
    }
  }

  predicate StartsWith(s: string, prefix: string) {
    |prefix| <= |s| && s[..|prefix|] == prefix
  }

  /** `OUTPUT_DIR.glob(prefix + "*.png")` on one flat directory: the name starts
      with `prefix`, ends with ".png", and the star matches whatever lies between,
      possibly nothing. */
  predicate GlobMatches(prefix: string, name: string) {
    |prefix| + |Extension| <= |name| && StartsWith(name, prefix) &&
    name[|name| - |Extension|..] == Extension
  }

  /** The glob's `*` stands for any string, the empty one included: a name
      matches `prefix*.png` exactly when it is `prefix`, some middle part, and
      ".png", in that order. */
  lemma GlobSemantics(prefix: string, name: string)
    ensures GlobMatches(prefix, name) <==> exists middle :: name == prefix + middle + Extension
  {
    if GlobMatches(prefix, name) {
      var middle := name[|prefix|..|name| - |Extension|];
      assert name == prefix + middle + Extension;
    }
    if exists middle :: name == prefix + middle + Extension {
      var middle :| name == prefix + middle + Extension;
      assert name[..|prefix|] == prefix;
      assert name[|name| - |Extension|..] == Extension;
    }
  }

  /** The names a category's glob sees: a part of the directory, which only a
      name the glob matches can enlarge. */
  function Matching(dir: set<string>, prefix: string): (m: set<string>)
    ensures m <= dir
    ensures forall name | name in dir && name !in m :: !GlobMatches(prefix, name)
  {
    set name | name in dir && GlobMatches(prefix, name)
  }

  /** The k-th name of a category. */
  function NumberedName(prefix: string, k: nat): (name: string)
    ensures GlobMatches(prefix, name)
  {
    var name := prefix + Decimal(k) + Extension;
    assert name[..|prefix|] == prefix;
    assert name[|name| - |Extension|..] == Extension;
    name
  }

  /** The name the next generated sticker of a category gets: one more than the
      number of names the glob finds. The name it returns is one its own glob
      will count on the next request. */
  function GeneratedName(dir: set<string>, prefix: string): (name: string)
    ensures GlobMatches(prefix, name)
    ensures name == NumberedName(prefix, |Matching(dir, prefix)| + 1)
  {
    prefix + Decimal(|Matching(dir, prefix)| + 1) + Extension
  }

  /** `"uploaded_" + image.filename`, the client's name taken verbatim. */
  function UploadName(filename: string): (name: string)
    ensures StartsWith(name, UploadPrefix) && name[|UploadPrefix|..] == filename
  {
    UploadPrefix + filename
  }

  /** Two uploads map to the same name exactly when their file names are equal,
      so a second upload of a name replaces the first. */
  lemma UploadNameInjective(f: string, g: string)
    ensures UploadName(f) == UploadName(g) <==> f == g
  {
  }

  /** The number between prefix and extension determines the name. */
  lemma NumberedNameInjective(prefix: string, j: nat, k: nat)
    ensures NumberedName(prefix, j) == NumberedName(prefix, k) <==> j == k
  {
    var a, b := NumberedName(prefix, j), NumberedName(prefix, k);
    if a == b {
      assert Decimal(j) == a[|prefix|..|a| - |Extension|];
      assert Decimal(k) == b[|prefix|..|b| - |Extension|];
      DecimalInjective(j, k);
    }
  }

  /** prefix1.png, ..., prefix<n>.png. */
  function NumberedNames(prefix: string, n: nat): set<string>
    decreases n
  {
    if n == 0 then {} else NumberedNames(prefix, n - 1) + {NumberedName(prefix, n)}
  }

  lemma {:induction false} NumberedNamesMembers(prefix: string, n: nat, k: nat)
    ensures NumberedName(prefix, k) in NumberedNames(prefix, n) <==> 1 <= k <= n
    decreases n
  {
    if n > 0 {
      NumberedNamesMembers(prefix, n - 1, k);
      NumberedNameInjective(prefix, k, n);
    }
  }

  /** The first n names are n distinct names. */
  lemma {:induction false} NumberedNamesCount(prefix: string, n: nat)
    ensures |NumberedNames(prefix, n)| == n
    decreases n
  {
    if n > 0 {
      NumberedNamesCount(prefix, n - 1);
      NumberedNamesMembers(prefix, n - 1, n);
    }
  }

  /** Under sequential use the counter works: when the names the glob finds are
      exactly prefix1.png ... prefix<n>.png, the next name is prefix<n+1>.png, it
      is not yet in the directory, and after it is written the glob finds
      prefix1.png ... prefix<n+1>.png. */
  lemma SequentialNaming(dir: set<string>, prefix: string, n: nat)
    requires Matching(dir, prefix) == NumberedNames(prefix, n)
    ensures GeneratedName(dir, prefix) == NumberedName(prefix, n + 1)
    ensures GeneratedName(dir, prefix) !in dir
    ensures Matching(dir + {GeneratedName(dir, prefix)}, prefix) == NumberedNames(prefix, n + 1)
  {
    NextNumberedName(dir, prefix, n);
    var name := NumberedName(prefix, n + 1);
    NumberedNamesMembers(prefix, n, n + 1);
    MatchingMember(dir, prefix, name);
    SameCategoryCounted(dir, prefix, name);
  }

  /** When the glob finds the first n names, the next name is the (n+1)-th. */
  lemma NextNumberedName(dir: set<string>, prefix: string, n: nat)
    requires Matching(dir, prefix) == NumberedNames(prefix, n)
    ensures GeneratedName(dir, prefix) == NumberedName(prefix, n + 1)
  {
    NumberedNamesCount(prefix, n);
  }

  /** A name of the directory is among the glob's names exactly when the glob matches it. */
  lemma MatchingMember(dir: set<string>, prefix: string, name: string)
    ensures name in Matching(dir, prefix) <==> name in dir && GlobMatches(prefix, name)
  {
  }

  /** Adding a name the glob matches adds exactly that name to the glob's result. */
  lemma SameCategoryCounted(dir: set<string>, prefix: string, name: string)
    requires GlobMatches(prefix, name)
    ensures Matching(dir + {name}, prefix) == Matching(dir, prefix) + {name}
  {
  }

  /** With generated_sticker_1.png and generated_sticker_2.png present, the next
      text sticker is generated_sticker_3.png. */
  lemma ThirdTextSticker(dir: set<string>)
    requires dir == {"generated_sticker_1.png", "generated_sticker_2.png"}
    ensures GeneratedName(dir, TextPrefix) == "generated_sticker_3.png"
  {
    assert NumberedName(TextPrefix, 1) == "generated_sticker_1.png";
    assert NumberedName(TextPrefix, 2) == "generated_sticker_2.png";
    assert Matching(dir, TextPrefix) == dir;
    assert |dir| == 2;
    assert Decimal(3) == "3";
  }

  /** The counter is a count, not a maximum: a gap in the numbering makes the
      next name collide with an existing file, which is then overwritten. */
  lemma CountCanCollide(dir: set<string>)
    requires dir == {"generated_sticker_2.png"}
    ensures GeneratedName(dir, TextPrefix) == "generated_sticker_2.png"
    ensures GeneratedName(dir, TextPrefix) in dir
  {
    assert Matching(dir, TextPrefix) == dir;
  }

  /** A name of one category is never matched by another category's glob: voice
      stickers and uploads are not counted as text stickers, and text stickers
      and uploads are not counted as voice stickers. */
  lemma CategoriesDisjoint(name: string)
    ensures StartsWith(name, VoicePrefix) || StartsWith(name, UploadPrefix) ==> !GlobMatches(TextPrefix, name)
    ensures StartsWith(name, TextPrefix) || StartsWith(name, UploadPrefix) ==> !GlobMatches(VoicePrefix, name)
  {
    if StartsWith(name, VoicePrefix) || StartsWith(name, UploadPrefix) {
      assert name[0] != TextPrefix[0];
    }
    if StartsWith(name, TextPrefix) || StartsWith(name, UploadPrefix) {
      assert name[0] != VoicePrefix[0];
    }
  }

  /** Adding a name of another category leaves a category's count unchanged. */
  lemma OtherCategoryNotCounted(dir: set<string>, prefix: string, name: string)
    requires !GlobMatches(prefix, name)
    ensures Matching(dir + {name}, prefix) == Matching(dir, prefix)
  {
  }

  /** An upload never moves either generated counter, and a voice sticker never
      moves the text counter nor a text sticker the voice counter. */
  lemma CountersIndependent(dir: set<string>, filename: string, k: nat)
    ensures Matching(dir + {UploadName(filename)}, TextPrefix) == Matching(dir, TextPrefix)
    ensures Matching(dir + {UploadName(filename)}, VoicePrefix) == Matching(dir, VoicePrefix)
    ensures Matching(dir + {NumberedName(VoicePrefix, k)}, TextPrefix) == Matching(dir, TextPrefix)
    ensures Matching(dir + {NumberedName(TextPrefix, k)}, VoicePrefix) == Matching(dir, VoicePrefix)
  {
    CategoriesDisjoint(UploadName(filename));
    var voice, text := NumberedName(VoicePrefix, k), NumberedName(TextPrefix, k);
    CategoriesDisjoint(voice);
    CategoriesDisjoint(text);
    OtherCategoryNotCounted(dir, TextPrefix, UploadName(filename));
    OtherCategoryNotCounted(dir, VoicePrefix, UploadName(filename));
    OtherCategoryNotCounted(dir, TextPrefix, voice);
    OtherCategoryNotCounted(dir, VoicePrefix, text);
  }
}
