/** File names for the attachments of one message, made unique with a number. */
module AttachmentNames {
  import opened Prelude
  import Decimal

  /** The position of the last dot of a file name that starts a suffix; the length if there is none. */
  function SuffixStart(name: string): (k: nat)
    ensures k <= |name|
  {
    var k := LastDot(name);
    if k.Some? && 0 < k.value < |name| - 1 then k.value else |name|
  }

  function LastDot(name: string): (k: Option<nat>)
    ensures k.Some? ==> k.value < |name| && name[k.value] == '.'
  {
    if name == "" then None
    else if name[|name| - 1] == '.' then Some(|name| - 1)
    else LastDot(name[..|name| - 1])
  }

  function Stem(name: string): string {
    name[..SuffixStart(name)]
  }

  function Suffix(name: string): string {
    name[SuffixStart(name)..]
  }

  /** The candidates in the order they are tried: the name itself, then numbers from 2 on. */
  function Candidate(name: string, k: nat): string {
    if k == 0 then name else Stem(name) + "-" + Decimal.Render(k + 1) + Suffix(name)
  }

  lemma StemAndSuffix(name: string)
    ensures Stem(name) + Suffix(name) == name
  {
  }

  /** No two candidates are equal. */
  lemma CandidatesDiffer(name: string, j: nat, k: nat)
    requires j < k
    ensures Candidate(name, j) != Candidate(name, k)
  {
    var stem, suffix := Stem(name), Suffix(name);
    StemAndSuffix(name);
    var number := Decimal.Render(k + 1);
    if j == 0 {
      assert |Candidate(name, k)| == |name| + 1 + |number|;
    } else if Candidate(name, j) == Candidate(name, k) {
      var other := Decimal.Render(j + 1);
      var a, b := Candidate(name, j), Candidate(name, k);
      assert |other| == |number|;
      assert a == stem + "-" + other + suffix && b == stem + "-" + number + suffix;
      assert other == a[|stem| + 1..|stem| + 1 + |other|] == b[|stem| + 1..|stem| + 1 + |number|] == number;
      Decimal.RenderInjective(j + 1, k + 1);
    }
  }

  predicate NoDot(s: string) {
    forall j :: 0 <= j < |s| ==> s[j] != '.'
  }

  lemma {:induction false} LastDotMeans(s: string)
    ensures match LastDot(s)
            case None => NoDot(s)
            case Some(j) => NoDot(s[j + 1..])
  {
    if s != "" && s[|s| - 1] != '.' {
      var front := s[..|s| - 1];
      LastDotMeans(front);
      match LastDot(front) {
        case None =>
        case Some(j) => assert s[j + 1..] == front[j + 1..] + [s[|s| - 1]];
      }
    }
  }

  /** The dot after which there is none is the last. */
  lemma {:induction false} LastDotIs(head: string, tail: string)
    requires NoDot(tail)
    ensures LastDot(head + "." + tail) == Some(|head|)
  {
    var s := head + "." + tail;
    if tail == "" {
      assert s[|s| - 1] == '.';
    } else {
      var front := tail[..|tail| - 1];
      LastDotIs(head, front);
      assert s[..|s| - 1] == head + "." + front && s[|s| - 1] == tail[|tail| - 1];
    }
  }

  /** The number that a candidate gets, with its hyphen. */
  function Numbering(k: nat): string {
    "-" + Decimal.Render(k + 1)
  }

  lemma NumberingHasNoDot(k: nat)
    ensures NoDot(Numbering(k)) && Numbering(k) != ""
  {
    var number := Decimal.Render(k + 1);
    forall j | 0 <= j < |Numbering(k)| ensures Numbering(k)[j] != '.' {
      if j > 0 {
        assert Numbering(k)[j] == number[j - 1] && Decimal.IsDigit(number[j - 1]);
      }
    }
  }

  lemma SuffixOf(head: string, tail: string)
    requires NoDot(tail)
    ensures Suffix(head + "." + tail) == if head != "" && tail != "" then "." + tail else ""
  {
    LastDotIs(head, tail);
  }

  lemma NoSuffix(s: string)
    requires NoDot(s)
    ensures Suffix(s) == ""
  {
    LastDotMeans(s);
  }

  /** A name is one without a dot, or what precedes and what follows its last dot. */
  lemma SplitName(name: string) returns (head: string, tail: string)
    requires !NoDot(name)
    ensures name == head + "." + tail && NoDot(tail)
  {
    LastDotMeans(name);
    var j := LastDot(name).value;
    head, tail := name[..j], name[j + 1..];
    assert name == name[..j] + [name[j]] + name[j + 1..];
  }

  lemma CandidateIsNumbered(name: string, k: nat)
    requires k > 0
    ensures Candidate(name, k) == Stem(name) + Numbering(k) + Suffix(name)
  {
    Assoc(Stem(name), "-", Decimal.Render(k + 1));
  }

  lemma Assoc(a: string, b: string, c: string)
    ensures a + b + c == a + (b + c)
  {
  }

  lemma StemOf(head: string, tail: string)
    requires NoDot(tail)
    ensures Stem(head + "." + tail) == if head != "" && tail != "" then head else head + "." + tail
  {
    LastDotIs(head, tail);
  }

  lemma Numbered(head: string, tail: string, k: nat)
    requires NoDot(tail) && k > 0
    ensures Candidate(head + "." + tail, k) ==
            if head != "" && tail != "" then (head + Numbering(k)) + "." + tail else head + "." + (tail + Numbering(k))
  {
    var name, number := head + "." + tail, Numbering(k);
    CandidateIsNumbered(name, k);
    StemOf(head, tail);
    SuffixOf(head, tail);
    if head != "" && tail != "" {
      Assoc(head + number, ".", tail);
    } else {
      assert name + number + "" == name + number;
      Assoc(head + ".", tail, number);
    }
  }

  lemma DottedKeepsSuffix(head: string, tail: string, k: nat)
    requires NoDot(tail) && k > 0
    ensures Suffix(Candidate(head + "." + tail, k)) == Suffix(head + "." + tail) <==> head == "" || tail != ""
  {
    var number := Numbering(k);
    NumberingHasNoDot(k);
    Numbered(head, tail, k);
    SuffixOf(head, tail);
    if head != "" && tail != "" {
      SuffixOf(head + number, tail);
    } else {
      SuffixOf(head, tail + number);
    }
  }

  lemma PlainKeepsSuffix(name: string, k: nat)
    requires NoDot(name) && k > 0
    ensures Suffix(name) == "" && Suffix(Candidate(name, k)) == ""
  {
    NumberingHasNoDot(k);
    NoSuffix(name);
    assert Stem(name) == name && Candidate(name, k) == name + Numbering(k);
    NoSuffix(name + Numbering(k));
  }

  /**
    The number goes before the suffix, so a candidate keeps the suffix of the name, except for a
    name that ends in a dot (and is more than a dot): there the number becomes a suffix.
   */
  lemma CandidateKeepsSuffix(name: string, k: nat)
    requires k > 0
    ensures Suffix(Candidate(name, k)) == Suffix(name) <==> !(|name| > 1 && name[|name| - 1] == '.')
  {
    if NoDot(name) {
      PlainKeepsSuffix(name, k);
    } else {
      var head, tail := SplitName(name);
      DottedKeepsSuffix(head, tail, k);
    }
  }

  /** The first `n` candidates. */
  function Tried(name: string, n: nat): set<string> {
    if n == 0 then {} else Tried(name, n - 1) + {Candidate(name, n - 1)}
  }

  lemma {:induction false} TriedIndex(name: string, n: nat, c: string) returns (k: nat)
    requires c in Tried(name, n)
    ensures k < n && c == Candidate(name, k)
  {
    if c == Candidate(name, n - 1) {
      k := n - 1;
    } else {
      k := TriedIndex(name, n - 1, c);
    }
  }

  /** They are `n` different names. */
  lemma {:induction false} TriedCount(name: string, n: nat)
    ensures |Tried(name, n)| == n
  {
    if n > 0 {
      TriedCount(name, n - 1);
      if Candidate(name, n - 1) in Tried(name, n - 1) {
        var k := TriedIndex(name, n - 1, Candidate(name, n - 1));
        CandidatesDiffer(name, k, n - 1);
      }
    }
  }

  lemma SubsetSize<T>(a: set<T>, b: set<T>)
    requires a <= b
    ensures |a| <= |b|
    decreases |a|
  {
    if a != {} {
      var x :| x in a;
      SubsetSize(a - {x}, b - {x});
    }
  }

  /** As many candidates in use as tried: there are no more than names in use. */
  lemma TriedFit(name: string, n: nat, used: set<string>)
    requires forall k :: 0 <= k < n ==> Candidate(name, k) in used
    ensures n <= |used|
  {
    TriedCount(name, n);
    forall c | c in Tried(name, n) ensures c in used {
      var k := TriedIndex(name, n, c);
    }
    SubsetSize(Tried(name, n), used);
  }

  /** `choice` is the first candidate, from the `k`-th on, that is not in use; `left` more may be tried. */
  predicate FreeFrom(name: string, used: set<string>, choice: string, k: nat, left: nat)
    decreases left
  {
    if Candidate(name, k) !in used then choice == Candidate(name, k)
    else left > 0 && FreeFrom(name, used, choice, k + 1, left - 1)
  }

  /** The first candidate of all, found within |used| + 1 attempts. */
  predicate FirstFree(name: string, used: set<string>, choice: string) {
    FreeFrom(name, used, choice, 0, |used|)
  }

  /** From the candidate that was found back to the first. */
  lemma {:induction false} FreeFromStart(name: string, used: set<string>, n: nat, k: nat)
    requires k <= n <= |used| && Candidate(name, n) !in used
    requires forall j :: k <= j < n ==> Candidate(name, j) in used
    ensures FreeFrom(name, used, Candidate(name, n), k, |used| - k)
    decreases n - k
  {
    if k < n {
      FreeFromStart(name, used, n, k + 1);
    }
  }

  /** The choice is a candidate that is not in use, and all candidates before it are. */
  lemma {:induction false} FreeFromMeans(name: string, used: set<string>, choice: string, k: nat, left: nat)
    returns (n: nat)
    requires FreeFrom(name, used, choice, k, left)
    ensures k <= n <= k + left && choice == Candidate(name, n) && choice !in used
    ensures forall j :: k <= j < n ==> Candidate(name, j) in used
    decreases left
  {
    if Candidate(name, k) !in used {
      n := k;
    } else {
      n := FreeFromMeans(name, used, choice, k + 1, left - 1);
    }
  }

  method UniqueName(name: string, used: set<string>) returns (candidate: string, used': set<string>)
    ensures FirstFree(name, used, candidate)
    ensures candidate !in used && used' == used + {candidate}
  {
    candidate := name;
    var stem, suffix := Stem(name), Suffix(name);
    var index := 2;
    while candidate in used
      invariant index >= 2
      invariant candidate == Candidate(name, index - 2)
      invariant forall j :: 0 <= j < index - 2 ==> Candidate(name, j) in used
      invariant index - 2 <= |used|
      decreases |used| + 2 - index
    {
      TriedFit(name, index - 1, used);
      candidate := stem + "-" + Decimal.Render(index) + suffix;
      index := index + 1;
    }
    FreeFromStart(name, used, index - 2, 0);
    used' := used + {candidate};
  }

  // ---------------------------------------------------------------- safe names

  predicate SafeChar(c: char) {
    'a' <= c <= 'z' || 'A' <= c <= 'Z' || '0' <= c <= '9' || c == '.' || c == '_' || c == '-'
  }

  predicate AllSafe(s: string) {
    s != "" ==> SafeChar(s[|s| - 1]) && AllSafe(s[..|s| - 1])
  }

  /** A name that is one visible path component: no separator, not empty, no leading dot. */
  predicate SafeName(name: string) {
    name != "" && !Stripped(name[0]) && AllSafe(name)
  }

  lemma {:induction false} AllSafeMeans(s: string)
    ensures AllSafe(s) <==> forall k :: 0 <= k < |s| ==> SafeChar(s[k])
  {
    if s != "" {
      AllSafeMeans(s[..|s| - 1]);
    }
  }

  lemma AllSafeSlice(s: string, i: nat, j: nat)
    requires AllSafe(s) && i <= j <= |s|
    ensures AllSafe(s[i..j])
  {
    AllSafeMeans(s);
    AllSafeMeans(s[i..j]);
  }

  lemma AllSafeConcat(a: string, b: string)
    requires AllSafe(a) && AllSafe(b)
    ensures AllSafe(a + b)
  {
    AllSafeMeans(a);
    AllSafeMeans(b);
    AllSafeMeans(a + b);
  }

  /** The part after the last separator. */
  function Tail(path: string): string {
    if path == "" || path[|path| - 1] == '/' then "" else Tail(path[..|path| - 1]) + [path[|path| - 1]]
  }

  /** The last component of a path; empty components and single dots do not count. */
  function PathName(path: string): string
    decreases |path|
  {
    var last := Tail(path);
    if last != "" && last != "." then last
    else if |last| >= |path| then ""
    else PathName(path[..|path| - |last| - 1])
  }

  function Replaced(s: string): string {
    if s == "" then ""
    else Replaced(s[..|s| - 1]) + [if SafeChar(s[|s| - 1]) then s[|s| - 1] else '_']
  }

  predicate Stripped(c: char) {
    c == '.' || c == '_'
  }

  function StripLeft(s: string): string {
    if s != "" && Stripped(s[0]) then StripLeft(s[1..]) else s
  }

  function StripRight(s: string): string {
    if s != "" && Stripped(s[|s| - 1]) then StripRight(s[..|s| - 1]) else s
  }

  const LONGEST_NAME := 160

  const FALLBACK := "file"

  function StrippedName(component: string): string {
    StripRight(StripLeft(Replaced(component)))
  }

  /** A name that is not empty and not too long. */
  function Shortened(stripped: string): string {
    var name := if stripped == "" then FALLBACK else stripped;
    if |name| <= LONGEST_NAME then name else name[..LONGEST_NAME]
  }

  /** The name of an attachment made safe; `raw` is "" when there is none. */
  function Sanitised(raw: string): string {
    Shortened(StrippedName(PathName(if raw == "" then FALLBACK else raw)))
  }

  lemma {:induction false} ReplacedIsSafe(s: string)
    ensures AllSafe(Replaced(s))
  {
    if s != "" {
      var front := Replaced(s[..|s| - 1]);
      ReplacedIsSafe(s[..|s| - 1]);
      assert Replaced(s)[..|front|] == front;
    }
  }

  lemma {:induction false} StripLeftIsSafe(s: string)
    requires AllSafe(s)
    ensures var r := StripLeft(s); AllSafe(r) && (r != "" ==> !Stripped(r[0]))
  {
    if s != "" && Stripped(s[0]) {
      AllSafeSlice(s, 1, |s|);
      assert s[1..|s|] == s[1..];
      StripLeftIsSafe(s[1..]);
    }
  }

  lemma {:induction false} StripRightIsSafe(s: string)
    requires AllSafe(s)
    ensures var r := StripRight(s); AllSafe(r) && r <= s
  {
    if s != "" && Stripped(s[|s| - 1]) {
      StripRightIsSafe(s[..|s| - 1]);
    }
  }

  lemma StrippedNameIsSafe(component: string)
    ensures var name := StrippedName(component); name != "" ==> SafeName(name)
  {
    ReplacedIsSafe(component);
    StripLeftIsSafe(Replaced(component));
    StripRightIsSafe(StripLeft(Replaced(component)));
  }

  lemma FallbackIsSafe()
    ensures SafeName(FALLBACK)
  {
    AllSafeMeans(FALLBACK);
  }

  lemma ShortenedIsSafe(stripped: string)
    requires stripped != "" ==> SafeName(stripped)
    ensures SafeName(Shortened(stripped)) && |Shortened(stripped)| <= LONGEST_NAME
  {
    FallbackIsSafe();
    if |stripped| > LONGEST_NAME {
      AllSafeSlice(stripped, 0, LONGEST_NAME);
      assert stripped[0..LONGEST_NAME] == stripped[..LONGEST_NAME];
    }
  }

  /** Whatever an attachment is called, its sanitised name is one safe path component. */
  lemma SanitisedIsSafe(raw: string)
    ensures SafeName(Sanitised(raw)) && |Sanitised(raw)| <= LONGEST_NAME
  {
    var component := PathName(if raw == "" then FALLBACK else raw);
    StrippedNameIsSafe(component);
    ShortenedIsSafe(StrippedName(component));
  }

  // ---------------------------------------------------------------- what sanitising leaves alone

  lemma {:induction false} TailIsShort(path: string)
    ensures |Tail(path)| <= |path|
  {
    if path != "" && path[|path| - 1] != '/' {
      TailIsShort(path[..|path| - 1]);
    }
  }

  lemma {:induction false} TailIsAll(s: string)
    requires AllSafe(s)
    ensures Tail(s) == s
  {
    if s != "" {
      TailIsAll(s[..|s| - 1]);
    }
  }

  lemma {:induction false} ComponentIsShort(path: string)
    ensures |PathName(path)| <= |path|
    decreases |path|
  {
    TailIsShort(path);
    var last := Tail(path);
    if !(last != "" && last != ".") && |last| < |path| {
      ComponentIsShort(path[..|path| - |last| - 1]);
    }
  }

  lemma {:induction false} SafeIsNotReplaced(s: string)
    ensures |Replaced(s)| == |s| && (AllSafe(s) ==> Replaced(s) == s)
  {
    if s != "" {
      SafeIsNotReplaced(s[..|s| - 1]);
    }
  }

  lemma {:induction false} StripLeftIsShort(s: string)
    ensures |StripLeft(s)| <= |s|
  {
    if s != "" && Stripped(s[0]) {
      StripLeftIsShort(s[1..]);
    }
  }

  lemma {:induction false} StripRightEnds(s: string)
    ensures var r := StripRight(s); |r| <= |s| && (r != "" ==> !Stripped(r[|r| - 1]))
  {
    if s != "" && Stripped(s[|s| - 1]) {
      StripRightEnds(s[..|s| - 1]);
    }
  }

  lemma StrippedNameIsShort(component: string)
    ensures var name := StrippedName(component);
            |name| <= |component| && (name != "" ==> !Stripped(name[|name| - 1]))
  {
    SafeIsNotReplaced(component);
    StripLeftIsShort(Replaced(component));
    StripRightEnds(StripLeft(Replaced(component)));
  }

  lemma SafeIsItsComponent(raw: string)
    requires SafeName(raw)
    ensures PathName(raw) == raw && StripLeft(raw) == raw && Replaced(raw) == raw
  {
    TailIsAll(raw);
    SafeIsNotReplaced(raw);
  }

  /** A name is kept exactly if it is safe, not too long and does not end in what is stripped. */
  lemma SanitisedKeeps(raw: string)
    requires |raw| <= LONGEST_NAME
    ensures Sanitised(raw) == raw <==> SafeName(raw) && !Stripped(raw[|raw| - 1])
  {
    SanitisedIsSafe(raw);
    if raw != "" && SafeName(raw) && !Stripped(raw[|raw| - 1]) {
      SafeIsItsComponent(raw);
    } else if raw != "" {
      var component := PathName(raw);
      ComponentIsShort(raw);
      StrippedNameIsShort(component);
      FallbackEnds();
    }
  }

  lemma FallbackEnds()
    ensures !Stripped(FALLBACK[|FALLBACK| - 1])
  {
  }

  /** Numbering a safe name leaves it safe. */
  lemma CandidateIsSafe(name: string, k: nat)
    requires SafeName(name)
    ensures SafeName(Candidate(name, k))
  {
    if k > 0 {
      var stem, suffix, number := Stem(name), Suffix(name), Decimal.Render(k + 1);
      assert stem != "" && stem[0] == name[0];
      AllSafeSlice(name, 0, |stem|);
      AllSafeSlice(name, |stem|, |name|);
      assert name[0..|stem|] == stem && name[|stem|..|name|] == suffix;
      forall j | 0 <= j < |number| ensures SafeChar(number[j]) {
        assert Decimal.IsDigit(number[j]);
      }
      AllSafeMeans(number);
      AllSafeMeans("-");
      AllSafeConcat(stem, "-");
      AllSafeConcat(stem + "-", number);
      AllSafeConcat(stem + "-" + number, suffix);
    }
  }

  // ---------------------------------------------------------------- a batch of attachments

  /** An attachment that is a file; an id that is not a string is `None`. */
  datatype Attachment = Attachment(fileId: Option<string>, name: string, readable: bool, tooLarge: bool)

  datatype Refusal = NotFound | FileTooLarge

  function InUse(names: seq<string>): set<string> {
    if names == [] then {} else InUse(names[..|names| - 1]) + {names[|names| - 1]}
  }

  lemma {:induction false} InUseHas(names: seq<string>, j: nat)
    requires j < |names|
    ensures names[j] in InUse(names)
  {
    if j < |names| - 1 {
      InUseHas(names[..|names| - 1], j);
    }
  }

  predicate Distinct(names: seq<string>) {
    forall j, k :: 0 <= j < k < |names| ==> names[j] != names[k]
  }

  function SeenIds(attachments: seq<Attachment>): set<string> {
    if attachments == [] then {}
    else
      var last := attachments[|attachments| - 1];
      SeenIds(attachments[..|attachments| - 1]) + if last.fileId.Some? then {last.fileId.value} else {}
  }

  /** The files of a batch: each id once, at its first occurrence. */
  function Files(attachments: seq<Attachment>): seq<Attachment> {
    if attachments == [] then []
    else
      var n := |attachments| - 1;
      var rest := Files(attachments[..n]);
      if attachments[n].fileId == None || attachments[n].fileId.value in SeenIds(attachments[..n]) then rest
      else rest + [attachments[n]]
  }

  /** The same said without recursion: an id is seen if and only if an attachment has it. */
  lemma {:induction false} SeenIdsAre(attachments: seq<Attachment>, id: string)
    ensures id in SeenIds(attachments) <==> exists k :: 0 <= k < |attachments| && attachments[k].fileId == Some(id)
  {
    if attachments != [] {
      var n := |attachments| - 1;
      SeenIdsAre(attachments[..n], id);
      if id in SeenIds(attachments[..n]) {
        var k :| 0 <= k < n && attachments[..n][k].fileId == Some(id);
        assert attachments[k].fileId == Some(id);
      } else if exists k :: 0 <= k < |attachments| && attachments[k].fileId == Some(id) {
        var k :| 0 <= k < |attachments| && attachments[k].fileId == Some(id);
        assert k < n ==> attachments[..n][k].fileId == Some(id);
      }
    }
  }

  predicate Admissible(file: Attachment) {
    file.readable && !file.tooLarge
  }

  /** The names that the files ask for. */
  function Wanted(files: seq<Attachment>): seq<string> {
    if files == [] then [] else Wanted(files[..|files| - 1]) + [Sanitised(files[|files| - 1].name)]
  }

  // ---------------------------------------------------------------- names given one after another

  /** Each name is the first candidate for the wanted one that is free of the names before it. */
  predicate Assigned(wanted: seq<string>, names: seq<string>) {
    && |names| == |wanted|
    && (wanted != [] ==>
          var n := |wanted| - 1;
          Assigned(wanted[..n], names[..n]) && FirstFree(wanted[n], InUse(names[..n]), names[n]))
  }

  lemma AssignNext(wanted: seq<string>, names: seq<string>, name: string, choice: string)
    requires Assigned(wanted, names) && FirstFree(name, InUse(names), choice)
    ensures Assigned(wanted + [name], names + [choice])
    ensures InUse(names + [choice]) == InUse(names) + {choice}
  {
    var n := |wanted|;
    assert (wanted + [name])[..n] == wanted && (names + [choice])[..n] == names;
  }

  lemma FreeIsNew(name: string, used: set<string>, choice: string)
    requires FirstFree(name, used, choice)
    ensures choice !in used && (SafeName(name) ==> SafeName(choice))
  {
    var n := FreeFromMeans(name, used, choice, 0, |used|);
    if SafeName(name) {
      CandidateIsSafe(name, n);
    }
  }

  /** So no two names are equal. */
  lemma {:induction false} AssignedDistinct(wanted: seq<string>, names: seq<string>)
    requires Assigned(wanted, names)
    ensures Distinct(names)
  {
    if wanted != [] {
      var n := |wanted| - 1;
      AssignedDistinct(wanted[..n], names[..n]);
      FreeIsNew(wanted[n], InUse(names[..n]), names[n]);
      forall j, k | 0 <= j < k < |names| ensures names[j] != names[k] {
        if k == n {
          InUseHas(names[..n], j);
        } else {
          assert names[..n][j] != names[..n][k];
        }
      }
    }
  }

  predicate AllSafeNames(names: seq<string>) {
    names != [] ==> SafeName(names[|names| - 1]) && AllSafeNames(names[..|names| - 1])
  }

  /** And safe names are made from safe ones. */
  lemma {:induction false} AssignedSafe(wanted: seq<string>, names: seq<string>)
    requires Assigned(wanted, names) && AllSafeNames(wanted)
    ensures AllSafeNames(names)
  {
    if wanted != [] {
      var n := |wanted| - 1;
      AssignedSafe(wanted[..n], names[..n]);
      FreeIsNew(wanted[n], InUse(names[..n]), names[n]);
    }
  }

  lemma {:induction false} WantedIsSafe(files: seq<Attachment>)
    ensures AllSafeNames(Wanted(files))
  {
    if files != [] {
      WantedIsSafe(files[..|files| - 1]);
      var w := Wanted(files);
      assert w[..|w| - 1] == Wanted(files[..|files| - 1]);
      SanitisedIsSafe(files[|files| - 1].name);
    }
  }

  lemma WantedNext(files: seq<Attachment>, a: Attachment)
    ensures Wanted(files + [a]) == Wanted(files) + [Sanitised(a.name)]
  {
    assert (files + [a])[..|files|] == files;
  }

  // ---------------------------------------------------------------- the batch

  lemma NextAttachment(attachments: seq<Attachment>, i: nat)
    requires i < |attachments|
    ensures var a := attachments[i];
            var unseen := a.fileId.Some? && a.fileId.value !in SeenIds(attachments[..i]);
            && Files(attachments[..i + 1])
               == (if unseen then Files(attachments[..i]) + [a] else Files(attachments[..i]))
            && SeenIds(attachments[..i + 1])
               == SeenIds(attachments[..i]) + if a.fileId.Some? then {a.fileId.value} else {}
  {
    assert attachments[..i + 1][..i] == attachments[..i];
  }

  /** The first file that cannot be read or is too large decides the refusal. */
  function FirstRefusal(files: seq<Attachment>): Option<Refusal> {
    if files == [] then None
    else
      var before, last := FirstRefusal(files[..|files| - 1]), files[|files| - 1];
      if before.Some? || Admissible(last) then before
      else Some(if !last.readable then NotFound else FileTooLarge)
  }

  lemma RefusalNext(files: seq<Attachment>, a: Attachment)
    ensures FirstRefusal(files + [a]) ==
            if FirstRefusal(files).Some? || Admissible(a) then FirstRefusal(files)
            else Some(if !a.readable then NotFound else FileTooLarge)
  {
    assert (files + [a])[..|files|] == files;
  }

  lemma RefusalLast(attachments: seq<Attachment>)
    requires attachments != []
    ensures var r := FirstRefusal(Files(attachments[..|attachments| - 1]));
            r.Some? ==> FirstRefusal(Files(attachments)) == r
  {
    var n := |attachments| - 1;
    RefusalNext(Files(attachments[..n]), attachments[n]);
  }

  /** Later attachments do not change a refusal. */
  lemma {:induction false} RefusalStays(attachments: seq<Attachment>, i: nat)
    requires i <= |attachments| && FirstRefusal(Files(attachments[..i])).Some?
    ensures FirstRefusal(Files(attachments)) == FirstRefusal(Files(attachments[..i]))
    decreases |attachments| - i
  {
    if i == |attachments| {
      assert attachments[..i] == attachments;
    } else {
      assert attachments[..i + 1][..i] == attachments[..i];
      RefusalLast(attachments[..i + 1]);
      RefusalStays(attachments, i + 1);
    }
  }

  /** One more file: refused, or named by the first free candidate. */
  method NameFile(a: Attachment, used: set<string>) returns (r: Result<string, Refusal>)
    ensures match r
            case Ok(name) => Admissible(a) && FirstFree(Sanitised(a.name), used, name)
            case Err(e) => !Admissible(a) && e == if !a.readable then NotFound else FileTooLarge
  {
    if !a.readable {
      return Err(NotFound);
    }
    if a.tooLarge {
      return Err(FileTooLarge);
    }
    var name, taken := UniqueName(Sanitised(a.name), used);
    r := Ok(name);
  }

  /**
    Each file gets its name, all different and safe, or the batch is refused for the first file
    that cannot be read or is too large.
   */
  method CheckoutNames(attachments: seq<Attachment>) returns (r: Result<seq<string>, Refusal>)
    ensures match r
            case Ok(names) =>
              && FirstRefusal(Files(attachments)) == None
              && Assigned(Wanted(Files(attachments)), names) && Distinct(names) && AllSafeNames(names)
            case Err(e) => FirstRefusal(Files(attachments)) == Some(e)
  {
    var names: seq<string>, used: set<string>, seen: set<string> := [], {}, {};
    ghost var files: seq<Attachment> := [];
    assert attachments[..0] == [];
    for i := 0 to |attachments|
      invariant files == Files(attachments[..i]) && seen == SeenIds(attachments[..i])
      invariant Assigned(Wanted(files), names) && used == InUse(names) && FirstRefusal(files) == None
    {
      var a := attachments[i];
      NextAttachment(attachments, i);
      if a.fileId.Some? && a.fileId.value !in seen {
        RefusalNext(files, a);
        WantedNext(files, a);
        ghost var wanted := Wanted(files);
        var named := NameFile(a, used);
        files := files + [a];
        if named.Err? {
          RefusalStays(attachments, i + 1);
          return Err(named.error);
        }
        AssignNext(wanted, names, Sanitised(a.name), named.value);
        names, used := names + [named.value], used + {named.value};
      }
      seen := seen + if a.fileId.Some? then {a.fileId.value} else {};
    }
    assert attachments[..|attachments|] == attachments;
    AssignedDistinct(Wanted(files), names);
    WantedIsSafe(files);
    AssignedSafe(Wanted(files), names);
    r := Ok(names);
  }
}
