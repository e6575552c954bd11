/** The small utilities of src/utils/helpers.js: clock strings, the text progress
    bar, the Fisher-Yates shuffle, truncation, rank labels, the genre colour lookup
    and paging. Strings are sequences of Unicode scalar values; numbers are naturals
    (the callers only ever pass non-negative whole numbers). */
module Helpers {
  import opened Optional

  // ---------------------------------------------------------------------------
  // Numbers as decimal text
  // ---------------------------------------------------------------------------

  function Digit(d: nat): (c: char)
    requires d < 10
    ensures '0' <= c <= '9'
  {
    (d + '0' as int) as char
  }

  function DigitValue(c: char): nat
  {
    if '0' <= c <= '9' then c as int - '0' as int else 0
  }

  predicate IsDigits(s: string)
  {
    forall i :: 0 <= i < |s| ==> '0' <= s[i] <= '9'
  }

  /** How a JavaScript template string prints a non-negative whole number. */
  function NatToString(n: nat): (r: string)
    ensures |r| > 0 && IsDigits(r)
    decreases n
  {
    if n < 10 then [Digit(n)] else NatToString(n / 10) + [Digit(n % 10)]
  }

  /** Reads a string of decimal digits back as a number. */
  function ParseNat(s: string): nat
    decreases |s|
  {
    if s == [] then 0 else ParseNat(s[..|s| - 1]) * 10 + DigitValue(s[|s| - 1])
  }

  lemma {:induction false} ParseNatToString(n: nat)
    ensures ParseNat(NatToString(n)) == n
    decreases n
  {
    if n >= 10 {
      var s := NatToString(n);
      assert s[..|s| - 1] == NatToString(n / 10);
      ParseNatToString(n / 10);
    }
  }

  /** How a template string prints any whole number. */
  function IntToString(i: int): (r: string)
  {
    if i < 0 then "-" + NatToString(-i) else NatToString(i)
  }

  /** A printed number starts with '-' exactly when it is negative. */
  lemma IntToStringStart(i: int)
    ensures IntToString(i)[0] == '-' <==> i < 0
  {
    assert NatToString(if i < 0 then -i else i)[0] != '-';
  }

  /** Printing is injective: two numbers that print alike are equal. */
  lemma IntToStringInjective(a: int, b: int)
    requires IntToString(a) == IntToString(b)
    ensures a == b
  {
    IntToStringStart(a);
    IntToStringStart(b);
    if a < 0 && b < 0 {
      assert NatToString(-a) == IntToString(a)[1..] == IntToString(b)[1..] == NatToString(-b);
      ParseNatToString(-a);
      ParseNatToString(-b);
    } else if a >= 0 && b >= 0 {
      ParseNatToString(a);
      ParseNatToString(b);
    }
  }

  /** `n.toString().padStart(2, '0')`. */
  function Pad2(n: nat): (r: string)
  {
    var s := NatToString(n);
    if |s| >= 2 then s else ['0'] + s
  }

  lemma Pad2Reads(n: nat)
    ensures IsDigits(Pad2(n)) && ParseNat(Pad2(n)) == n
    ensures n < 100 ==> |Pad2(n)| == 2
  {
    ParseNatToString(n);
    if n < 10 {
      assert Pad2(n) == ['0', Digit(n)];
      assert Pad2(n)[..1] == ['0'];
    }
  }

  // ---------------------------------------------------------------------------
  // Splitting and joining on a separator character
  // ---------------------------------------------------------------------------

  /** `t.split(sep)` for a one-character separator. */
  function Split(t: string, sep: char): (r: seq<string>)
    ensures |r| > 0
    decreases |t|
  {
    if t == [] then [""]
    else
      var rest := Split(t[1..], sep);
      if t[0] == sep then [""] + rest else [[t[0]] + rest[0]] + rest[1..]
  }

  /** `parts.join(sep)` for a one-character separator. */
  function Join(parts: seq<string>, sep: char): (r: string)
    decreases |parts|
  {
    if |parts| == 0 then ""
    else if |parts| == 1 then parts[0]
    else parts[0] + [sep] + Join(parts[1..], sep)
  }

  lemma {:induction false} SplitWithout(a: string, sep: char)
    requires sep !in a
    ensures Split(a, sep) == [a]
    decreases |a|
  {
    if a != [] {
      SplitWithout(a[1..], sep);
      assert [a[0]] + a[1..] == a;
    }
  }

  lemma {:induction false} SplitAfter(a: string, sep: char, b: string)
    requires sep !in a
    ensures Split(a + [sep] + b, sep) == [a] + Split(b, sep)
    decreases |a|
  {
    var t := a + [sep] + b;
    if a == [] {
      assert t[1..] == b;
    } else {
      assert t[1..] == a[1..] + [sep] + b;
      SplitAfter(a[1..], sep, b);
      assert [a[0]] + a[1..] == a;
    }
  }

  /** Splitting undoes joining, as long as no part holds the separator. */
  lemma {:induction false} SplitJoin(parts: seq<string>, sep: char)
    requires |parts| > 0
    requires forall k :: 0 <= k < |parts| ==> sep !in parts[k]
    ensures Split(Join(parts, sep), sep) == parts
    decreases |parts|
  {
    if |parts| == 1 {
      SplitWithout(parts[0], sep);
    } else {
      SplitJoin(parts[1..], sep);
      SplitAfter(parts[0], sep, Join(parts[1..], sep));
      assert [parts[0]] + parts[1..] == parts;
    }
  }

  // ---------------------------------------------------------------------------
  // Clock strings: formatDuration and formatDurationSeconds
  // ---------------------------------------------------------------------------

  /** The common layout: "H:MM:SS" when there are hours, otherwise "M:SS". */
  function Clock(hours: nat, minutes: nat, seconds: nat): string
  {
    if hours > 0 then NatToString(hours) + ":" + Pad2(minutes) + ":" + Pad2(seconds)
    else NatToString(minutes) + ":" + Pad2(seconds)
  }

  /** formatDurationSeconds; a missing or zero input is passed as 0. */
  function FormatDurationSeconds(totalSeconds: nat): string
  {
    if totalSeconds == 0 then "0:00"
    else Clock(totalSeconds / 3600, totalSeconds / 60 % 60, totalSeconds % 60)
  }

  /** formatDuration, the same layout over milliseconds. */
  function FormatDuration(ms: nat): string
  {
    if ms == 0 then "0:00"
    else Clock(ms / 3600000, ms / 60000 % 60, ms / 1000 % 60)
  }

  /** How a listener reads a clock string back: "M:SS" or "H:MM:SS" as seconds. */
  function ClockSeconds(t: string): Option<nat>
  {
    var f := Split(t, ':');
    if |f| == 2 then Some(ParseNat(f[0]) * 60 + ParseNat(f[1]))
    else if |f| == 3 then Some(ParseNat(f[0]) * 3600 + ParseNat(f[1]) * 60 + ParseNat(f[2]))
    else None
  }

  lemma MulSign(k: int, d: int)
    ensures d > 0 && k >= 1 ==> k * d >= d
    ensures d > 0 && k <= -1 ==> k * d <= -d
  {
    if d > 0 && k >= 1 {
      assert k * d == (k - 1) * d + d;
    }
    if d > 0 && k <= -1 {
      assert k * d == -((-k - 1) * d) - d;
    }
  }

  lemma MulLe(x: int, y: int, z: int)
    ensures x <= y && z >= 0 ==> x * z <= y * z
  {
    if x <= y && z >= 0 {
      assert y * z - x * z == (y - x) * z;
    }
  }

  lemma DivisionUnique(a: int, d: int, q: int, r: int)
    requires d > 0 && 0 <= r < d && a == q * d + r
    ensures a / d == q && a % d == r
  {
    var q', r' := a / d, a % d;
    assert (q - q') * d == r' - r;
    MulSign(q - q', d);
  }

  lemma HoursFromMinutes(t: nat)
    ensures t / 3600 == t / 60 / 60
  {
  }

  lemma WholeSeconds(ms: nat)
    ensures ms / 3600000 == ms / 1000 / 3600
    ensures ms / 60000 == ms / 1000 / 60
  {
  }

  lemma NoColonIn(s: string)
    requires IsDigits(s)
    ensures ':' !in s
  {
  }

  lemma ReadMinutesSeconds(m: nat, sec: nat)
    requires sec < 60
    ensures ClockSeconds(NatToString(m) + ":" + Pad2(sec)) == Some(m * 60 + sec)
  {
    var A, C := NatToString(m), Pad2(sec);
    ParseNatToString(m);
    Pad2Reads(sec);
    NoColonIn(A);
    NoColonIn(C);
    SplitWithout(C, ':');
    SplitAfter(A, ':', C);
    assert A + ":" + C == A + [':'] + C;
  }

  lemma ReadHoursMinutesSeconds(h: nat, m: nat, sec: nat)
    requires m < 60 && sec < 60
    ensures ClockSeconds(NatToString(h) + ":" + Pad2(m) + ":" + Pad2(sec)) == Some(h * 3600 + m * 60 + sec)
  {
    var A, B, C := NatToString(h), Pad2(m), Pad2(sec);
    ParseNatToString(h);
    Pad2Reads(m);
    Pad2Reads(sec);
    NoColonIn(A);
    NoColonIn(B);
    NoColonIn(C);
    SplitWithout(C, ':');
    SplitAfter(B, ':', C);
    SplitAfter(A, ':', B + [':'] + C);
    assert A + ":" + B + ":" + C == A + [':'] + (B + [':'] + C);
  }

  lemma ClockFields(t: nat)
    ensures t == t / 3600 * 3600 + t / 60 % 60 * 60 + t % 60
    ensures t / 3600 == 0 ==> t / 60 % 60 == t / 60
  {
    HoursFromMinutes(t);
  }

  /** formatDurationSeconds loses nothing: reading the clock back gives the seconds. */
  lemma FormatDurationSecondsRoundTrip(totalSeconds: nat)
    ensures ClockSeconds(FormatDurationSeconds(totalSeconds)) == Some(totalSeconds)
  {
    var t := totalSeconds;
    ClockFields(t);
    if t == 0 {
      ReadMinutesSeconds(0, 0);
      assert NatToString(0) + ":" + Pad2(0) == "0:00";
    } else if t / 3600 > 0 {
      ReadHoursMinutesSeconds(t / 3600, t / 60 % 60, t % 60);
    } else {
      ReadMinutesSeconds(t / 60, t % 60);
    }
  }

  /** formatDuration(ms) shows exactly what formatDurationSeconds shows for the whole seconds in ms. */
  lemma FormatDurationAgrees(ms: nat)
    ensures FormatDuration(ms) == FormatDurationSeconds(ms / 1000)
  {
    WholeSeconds(ms);
    if ms > 0 && ms / 1000 == 0 {
      assert ms / 3600000 == 0 && ms / 60000 == 0;
      assert Clock(0, 0, 0) == "0:00";
    }
  }

  /** Reading back a formatDuration string gives the whole seconds of the input. */
  lemma FormatDurationRoundTrip(ms: nat)
    ensures ClockSeconds(FormatDuration(ms)) == Some(ms / 1000)
  {
    FormatDurationAgrees(ms);
    FormatDurationSecondsRoundTrip(ms / 1000);
  }

  // ---------------------------------------------------------------------------
  // createProgressBar
  // ---------------------------------------------------------------------------

  const Bar: char := '\U{25AC}'
  const Knob: char := '\U{1F518}'

  function Repeat(c: char, n: nat): (r: string)
    ensures |r| == n && forall i :: 0 <= i < n ==> r[i] == c
  {
    seq(n, _ => c)
  }

  /** Where the knob sits: floor(current / total * length), at most length. */
  function KnobPosition(current: nat, total: nat, length: nat): nat
    requires total > 0
  {
    var p := current * length / total;
    if p < length then p else length
  }

  /** createProgressBar; a missing total is passed as 0. */
  function CreateProgressBar(current: nat, total: nat, length: nat): string
  {
    if total == 0 then Repeat(Bar, length)
    else
      var progress := KnobPosition(current, total, length);
      var empty := length - progress;
      Repeat(Bar, progress) + [Knob] + Repeat(Bar, if empty - 1 < 0 then 0 else empty - 1)
  }

  lemma MulDivBelow(current: nat, total: nat, length: nat)
    requires total > 0
    ensures current < total && length > 0 ==> current * length / total < length
    ensures current >= total ==> current * length / total >= length
  {
    var n := current * length;
    var p := n / total;
    assert p * total <= n;
    MulLe(length, p, total);
    MulLe(current + 1, total, length);
    MulLe(total, current, length);
    MulLe(p + 1, length, total);
    assert n < (p + 1) * total;
  }

  /** With no total the bar is length bars and no knob. Otherwise there is exactly one
      knob, after KnobPosition bars; the bar has length glyphs while the track is
      unfinished and one more once it is full. */
  lemma ProgressBarLayout(current: nat, total: nat, length: nat)
    ensures total == 0 ==> CreateProgressBar(current, total, length) == Repeat(Bar, length)
    ensures total > 0 ==>
      var r, p := CreateProgressBar(current, total, length), KnobPosition(current, total, length);
      && |r| == (if current < total && length > 0 then length else length + 1)
      && (p == length <==> (current >= total || length == 0))
      && (forall i :: 0 <= i < |r| ==> (r[i] == Knob <==> i == p))
      && (forall i :: 0 <= i < |r| && i != p ==> r[i] == Bar)
  {
    if total > 0 {
      MulDivBelow(current, total, length);
      var r, p := CreateProgressBar(current, total, length), KnobPosition(current, total, length);
      forall i | 0 <= i < |r| ensures r[i] == (if i == p then Knob else Bar) {
        if i < p {
          assert r[i] == Repeat(Bar, p)[i];
        } else if i > p {
          assert r[i] == Repeat(Bar, |r| - p - 1)[i - p - 1];
        }
      }
    }
  }

  lemma DivMonotone(a: nat, b: nat, d: nat)
    requires d > 0 && a <= b
    ensures a / d <= b / d
  {
    MulLe(b / d + 1, a / d, d);
    assert (b / d + 1) * d == b / d * d + d;

  }

  /** The knob never moves backwards while the elapsed time grows. */
  lemma KnobMonotone(c1: nat, c2: nat, total: nat, length: nat)
    requires total > 0 && c1 <= c2
    ensures KnobPosition(c1, total, length) <= KnobPosition(c2, total, length)
  {
    assert c1 * length <= c2 * length;
    DivMonotone(c1 * length, c2 * length, total);
  }

  // ---------------------------------------------------------------------------
  // shuffleArray: Fisher-Yates with an oracle for Math.random
  // ---------------------------------------------------------------------------

  /** The random source. At the step for index i the source draws
      Math.floor(Math.random() * (i + 1)); the model takes pick(i) % (i + 1). */
  type Random = nat -> nat

  function Swap<T>(s: seq<T>, i: nat, j: nat): (r: seq<T>)
    requires i < |s| && j < |s|
    ensures |r| == |s|
  {
    s[i := s[j]][j := s[i]]
  }

  /** The swaps for indices i, i - 1, ..., 1, in that order. */
  function ShuffleSteps<T>(s: seq<T>, i: nat, pick: Random): seq<T>
    requires i < |s|
    decreases i
  {
    if i == 0 then s else ShuffleSteps(Swap(s, i, pick(i) % (i + 1)), i - 1, pick)
  }

  /** The order shuffleArray produces for the draws of pick. */
  function Shuffled<T>(s: seq<T>, pick: Random): seq<T>
  {
    if |s| == 0 then s else ShuffleSteps(s, |s| - 1, pick)
  }

  lemma SwapPermutes<T>(s: seq<T>, i: nat, j: nat)
    requires i < |s| && j < |s|
    ensures multiset(Swap(s, i, j)) == multiset(s)
  {
    var t := s[i := s[j]];
    assert multiset(t) == multiset(s) - multiset{s[i]} + multiset{s[j]};
    assert multiset(t[j := s[i]]) == multiset(t) - multiset{t[j]} + multiset{s[i]};
  }

  lemma {:induction false} ShuffleStepsPermutes<T>(s: seq<T>, i: nat, pick: Random)
    requires i < |s|
    ensures |ShuffleSteps(s, i, pick)| == |s|
    ensures multiset(ShuffleSteps(s, i, pick)) == multiset(s)
    decreases i
  {
    if i > 0 {
      var j := pick(i) % (i + 1);
      SwapPermutes(s, i, j);
      ShuffleStepsPermutes(Swap(s, i, j), i - 1, pick);
    }
  }

  /** Whatever the draws, the shuffle is a permutation of its input. */
  lemma ShuffledPermutes<T>(s: seq<T>, pick: Random)
    ensures |Shuffled(s, pick)| == |s|
    ensures multiset(Shuffled(s, pick)) == multiset(s)
  {
    if |s| > 0 {
      ShuffleStepsPermutes(s, |s| - 1, pick);
    }
  }

  /** Every element of the shuffle comes from the input. */
  lemma ShuffledMembers<T>(s: seq<T>, pick: Random, x: T)
    requires x in Shuffled(s, pick)
    ensures x in s
  {
    ShuffledPermutes(s, pick);
    assert x in multiset(Shuffled(s, pick));
  }

  /** shuffleArray: copies the input into a fresh array and shuffles the copy in place;
      the caller's sequence is a value and cannot change. */
  method ShuffleArray<T>(items: seq<T>, pick: Random) returns (shuffled: seq<T>)
    ensures shuffled == Shuffled(items, pick)
    ensures |shuffled| == |items| && multiset(shuffled) == multiset(items)
  {
    var a := new T[|items|](k requires 0 <= k < |items| => items[k]);
    assert a[..] == items;
    var i := |items| - 1;
    while i > 0
      invariant -1 <= i < |items|
      invariant i == -1 ==> |items| == 0
      invariant i >= 0 ==> ShuffleSteps(a[..], i, pick) == Shuffled(items, pick)
    {
      var j := pick(i) % (i + 1);
      ghost var before := a[..];
      a[i], a[j] := a[j], a[i];
      assert a[..] == Swap(before, i, j);
      i := i - 1;
    }
    shuffled := a[..];
    if |items| > 0 {
      assert ShuffleSteps(shuffled, 0, pick) == shuffled;
    }
    ShuffledPermutes(items, pick);
  }

  // ---------------------------------------------------------------------------
  // truncate
  // ---------------------------------------------------------------------------

  /** Where String.prototype.slice(0, end) stops: a negative end counts from the back. */
  function SliceEnd(len: nat, end: int): (r: nat)
    ensures r <= len
  {
    if end < 0 then (if len + end < 0 then 0 else len + end)
    else if end < len then end else len
  }

  /** truncate; a missing string is passed as "". */
  function Truncate(str: string, maxLength: int): (r: string)
    ensures str == "" ==> r == ""
    ensures |str| <= maxLength ==> r == str
    ensures maxLength >= 3 && |str| > maxLength ==>
              |r| == maxLength && r == str[..maxLength - 3] + "..."
    ensures maxLength < 3 && str != "" && |str| > maxLength ==> |r| > maxLength
  {
    if str == "" then ""
    else if |str| > maxLength then str[..SliceEnd(|str|, maxLength - 3)] + "..."
    else str
  }

  /** For the limits the bot uses (at least 3) the text never grows past the limit. */
  lemma TruncateFits(str: string, maxLength: int)
    requires maxLength >= 3
    ensures |Truncate(str, maxLength)| <= maxLength
    ensures Truncate(str, maxLength) == str || Truncate(str, maxLength)[..maxLength - 3] <= str
  {
  }

  // ---------------------------------------------------------------------------
  // getRankEmoji
  // ---------------------------------------------------------------------------

  const Gold: string := "\U{1F947}"
  const Silver: string := "\U{1F948}"
  const Bronze: string := "\U{1F949}"

  /** getRankEmoji: a medal for the top three, "**#n**" for every other rank. */
  function RankEmoji(rank: int): (r: string)
    ensures r in {Gold, Silver, Bronze} <==> 1 <= rank <= 3
    ensures rank == 1 ==> r == Gold
    ensures rank == 2 ==> r == Silver
    ensures rank == 3 ==> r == Bronze
    ensures !(1 <= rank <= 3) ==> r == "**#" + IntToString(rank) + "**"
  {
    if rank == 1 then Gold
    else if rank == 2 then Silver
    else if rank == 3 then Bronze
    else "**#" + IntToString(rank) + "**"
  }

  /** The label of a rank after the podium is the rank in bold: "**#", the decimal
      digits that read back as the rank, and "**". */
  lemma RankLabelReadsBack(rank: int)
    requires rank > 3
    ensures var text := RankEmoji(rank);
            && |text| > 5 && text[..3] == "**#" && text[|text| - 2..] == "**"
            && ParseNat(text[3..|text| - 2]) == rank
  {
    var text := RankEmoji(rank);
    assert text[3..|text| - 2] == NatToString(rank);
    ParseNatToString(rank);
  }

  /** Different ranks never share a label. */
  lemma RankEmojiInjective(a: int, b: int)
    requires RankEmoji(a) == RankEmoji(b)
    ensures a == b
  {
    if !(1 <= a <= 3) && !(1 <= b <= 3) {
      var la, lb := RankEmoji(a), RankEmoji(b);
      assert la[3..|la| - 2] == IntToString(a);
      assert lb[3..|lb| - 2] == IntToString(b);
      IntToStringInjective(a, b);
    }
  }

  // ---------------------------------------------------------------------------
  // Lower case and substring search (String.prototype.toLowerCase / includes)
  // ---------------------------------------------------------------------------

  /** Lower-casing of the ASCII letters; other characters are kept. */
  function LowerChar(c: char): char
  {
    if 'A' <= c <= 'Z' then (c as int + 32) as char else c
  }

  function ToLower(s: string): (r: string)
    ensures |r| == |s|
  {
    seq(|s|, i requires 0 <= i < |s| => LowerChar(s[i]))
  }

  lemma ToLowerPrefix(s: string, n: nat)
    requires n <= |s|
    ensures ToLower(s[..n]) == ToLower(s)[..n]
  {
  }

  /** `s.includes(key)`. */
  predicate Contains(s: string, key: string)
    decreases |s|
  {
    key <= s || (s != [] && Contains(s[1..], key))
  }

  /** A text found in a prefix is found in the whole. */
  lemma {:induction false} ContainsInPrefix(s: string, n: nat, key: string)
    requires n <= |s| && Contains(s[..n], key)
    ensures Contains(s, key)
    decreases n
  {
    if key <= s[..n] {
      assert key <= s;
    } else {
      assert s[..n][1..] == s[1..][..n - 1];
      ContainsInPrefix(s[1..], n - 1, key);
    }
  }

  // ---------------------------------------------------------------------------
  // getGenreColor
  // ---------------------------------------------------------------------------

  /** The colour table of the embed configuration. */
  datatype Palette = Palette(pop: int, hiphop: int, electronic: int, latin: int,
                             rnb: int, rock: int, default: int)

  datatype Family = Pop | HipHop | Electronic | Latin | Rnb | Rock

  function ColorOf(colors: Palette, f: Family): int
  {
    match f
    case Pop => colors.pop
    case HipHop => colors.hiphop
    case Electronic => colors.electronic
    case Latin => colors.latin
    case Rnb => colors.rnb
    case Rock => colors.rock
  }

  /** The genre keys in the order Object.entries visits them. */
  const GenreTable: seq<(string, Family)> := [
    ("pop", Pop), ("hip hop", HipHop), ("hip-hop", HipHop), ("rap", HipHop),
    ("electronic", Electronic), ("edm", Electronic), ("dance", Electronic),
    ("latin", Latin), ("reggaeton", Latin),
    ("r&b", Rnb), ("rnb", Rnb), ("soul", Rnb),
    ("rock", Rock), ("alternative", Rock)
  ]

  /** The first table index, from `from` on, whose key occurs in lower; |GenreTable| if none. */
  function FirstGenreKey(lower: string, from: nat): (k: nat)
    requires from <= |GenreTable|
    ensures from <= k <= |GenreTable|
    ensures k < |GenreTable| ==> Contains(lower, GenreTable[k].0)
    ensures forall j :: from <= j < k ==> !Contains(lower, GenreTable[j].0)
    decreases |GenreTable| - from
  {
    if from == |GenreTable| then from
    else if Contains(lower, GenreTable[from].0) then from
    else FirstGenreKey(lower, from + 1)
  }

  /** The colour getGenreColor picks; a missing genre is passed as "". */
  function GenreColor(genre: string, colors: Palette): int
  {
    if genre == "" then colors.default
    else
      var k := FirstGenreKey(ToLower(genre), 0);
      if k < |GenreTable| then ColorOf(colors, GenreTable[k].1) else colors.default
  }

  /** getGenreColor: the first key in table order that occurs in the lower-cased genre
      decides the colour; no genre, or no key, gives the default colour. */
  method GetGenreColor(genre: string, colors: Palette) returns (color: int)
    ensures genre == "" ==> color == colors.default
    ensures (genre != "" &&
             forall k :: 0 <= k < |GenreTable| ==> !Contains(ToLower(genre), GenreTable[k].0))
            ==> color == colors.default
    ensures forall k :: (0 <= k < |GenreTable| && genre != "" &&
                         Contains(ToLower(genre), GenreTable[k].0) &&
                         forall j :: 0 <= j < k ==> !Contains(ToLower(genre), GenreTable[j].0))
                        ==> color == ColorOf(colors, GenreTable[k].1)
    ensures color == GenreColor(genre, colors)
  {
    if genre == "" {
      return colors.default;
    }
    var lower := ToLower(genre);
    for k := 0 to |GenreTable|
      invariant forall j :: 0 <= j < k ==> !Contains(lower, GenreTable[j].0)
    {
      if Contains(lower, GenreTable[k].0) {
        return ColorOf(colors, GenreTable[k].1);
      }
    }
    return colors.default;
  }

  /** Table order matters: a genre mentioning "pop" is pop-coloured whatever else it names. */
  lemma PopComesFirst(genre: string, colors: Palette)
    requires Contains(ToLower(genre), "pop")
    ensures GenreColor(genre, colors) == colors.pop
  {
  }

  // ---------------------------------------------------------------------------
  // chunkArray
  // ---------------------------------------------------------------------------

  function Flatten<T>(chunks: seq<seq<T>>): seq<T>
  {
    if chunks == [] then [] else Flatten(chunks[..|chunks| - 1]) + chunks[|chunks| - 1]
  }

  lemma CeilingDivision(n: nat, size: nat, c: nat)
    requires size > 0
    requires n <= c * size
    requires c > 0 ==> (c - 1) * size < n
    ensures (n + size - 1) / size == c
  {
    if c == 0 {
      assert n == 0;
      DivisionUnique(size - 1, size, 0, size - 1);
    } else {
      var r := n + size - 1 - c * size;
      assert (c - 1) * size == c * size - size;
      assert 0 <= r < size;
      DivisionUnique(n + size - 1, size, c, r);
    }
  }

  /** chunkArray: the chunks concatenate back to the input, every chunk but the last
      holds exactly size elements, none is empty, and there are ceil(n / size) of them. */
  method ChunkArray<T>(items: seq<T>, size: nat) returns (chunks: seq<seq<T>>)
    requires size > 0
    ensures Flatten(chunks) == items
    ensures forall k :: 0 <= k < |chunks| - 1 ==> |chunks[k]| == size
    ensures forall k :: 0 <= k < |chunks| ==> 0 < |chunks[k]| <= size
    ensures |chunks| == (|items| + size - 1) / size
  {
    chunks := [];
    var i := 0;
    while i < |items|
      invariant i == |chunks| * size
      invariant Flatten(chunks) == items[..if i < |items| then i else |items|]
      invariant forall k :: 0 <= k < |chunks| - 1 ==> |chunks[k]| == size
      invariant forall k :: 0 <= k < |chunks| ==> 0 < |chunks[k]| <= size
      invariant |chunks| > 0 ==> (|chunks| - 1) * size < |items|
      invariant |chunks| > 0 && i < |items| ==> |chunks[|chunks| - 1]| == size
    {
      var end := if i + size < |items| then i + size else |items|;
      var chunk := items[i..end];
      assert items[..end] == items[..i] + chunk;
      chunks := chunks + [chunk];
      i := i + size;
    }
    CeilingDivision(|items|, size, |chunks|);
  }
}
