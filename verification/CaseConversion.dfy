/** Event and command names: splitting identifiers into words and printing the words in another case. */
module CaseConversion {
  import opened Aggregates

  // Identifiers are taken to be ASCII; other letters have no case here.




  predicate IsUpper(c: char) { 'A' <= c <= 'Z' }

  predicate IsLower(c: char) { 'a' <= c <= 'z' }

  predicate IsDigit(c: char) { '0' <= c <= '9' }

  predicate IsSeparator(c: char) { c == '_' || c == '-' || c == ' ' }

  function ToLower(c: char): char {
    if IsUpper(c) then (c as int - 'A' as int + 'a' as int) as char else c
  }

  function ToUpper(c: char): char {
    if IsLower(c) then (c as int - 'a' as int + 'A' as int) as char else c
  }

  function Lowered(s: string): string {
    seq(|s|, i requires 0 <= i < |s| => ToLower(s[i]))
  }

  function Uppered(s: string): string {
    seq(|s|, i requires 0 <= i < |s| => ToUpper(s[i]))
  }

  // ---------------------------------------------------------------------------
  // The tokenizer
  // ---------------------------------------------------------------------------

  /** The words found so far, the one being read, and whether the last character was lower case or a digit. */
  datatype Scanner = Scanner(words: seq<string>, current: string, prev: bool)

  const IDLE := Scanner([], "", false)

  function Finish(s: Scanner): seq<string> {
    if s.current == "" then s.words else s.words + [s.current]
  }

  /** A separator ends the word; so does an upper-case letter right after a lower-case letter or a digit. */
  function Feed(s: Scanner, c: char): Scanner {
    if IsSeparator(c) then Scanner(Finish(s), "", false)
    else
      var words := if IsUpper(c) && s.prev then Finish(s) else s.words;
      var current := if IsUpper(c) && s.prev then "" else s.current;
      Scanner(words, current + [ToLower(c)], IsLower(c) || IsDigit(c))
  }

  function Scan(s: Scanner, text: string): Scanner {
    Fold(Feed, s, text)
  }

  function Split(ident: string): seq<string> {
    Finish(Scan(IDLE, ident))
  }

  /** One pass over the characters. */
  method SplitWords(ident: string) returns (words: seq<string>)
    ensures words == Split(ident)
  {
    words := [];
    var current, prevLowerOrDigit := "", false;
    for i := 0 to |ident|
      invariant Scan(IDLE, ident[..i]) == Scanner(words, current, prevLowerOrDigit)
    {
      assert ident[..i + 1][..i] == ident[..i];
      var ch := ident[i];
      if ch == '_' || ch == '-' || ch == ' ' {
        if current != "" {
          words, current := words + [current], "";
        }
        prevLowerOrDigit := false;
        continue;
      }
      if IsUpper(ch) && prevLowerOrDigit && current != "" {
        words, current := words + [current], "";
      }
      current := current + [ToLower(ch)];
      prevLowerOrDigit := IsLower(ch) || IsDigit(ch);
    }
    assert ident[..|ident|] == ident;
    if current != "" {
      words := words + [current];
    }
  }

  /** What the tokenizer can return: non-empty, without separators and without upper case. */
  predicate IsWord(w: string) {
    w != "" && forall c <- w :: !IsSeparator(c) && !IsUpper(c)
  }

  predicate AreWords(ws: seq<string>) {
    forall w <- ws :: IsWord(w)
  }

  function Concat(ws: seq<string>): string {
    if ws == [] then "" else Concat(ws[..|ws| - 1]) + ws[|ws| - 1]
  }

  /** A text without its separators. */
  function Stripped(s: string): string {
    if s == "" then ""
    else Stripped(s[..|s| - 1]) + if IsSeparator(s[|s| - 1]) then "" else [s[|s| - 1]]
  }

  /** The scanner holds exactly the letters of what it has read, as words. */
  ghost predicate HasRead(s: Scanner, text: string) {
    && Concat(s.words) + s.current == Lowered(Stripped(text))
    && AreWords(s.words) && (s.current == "" || IsWord(s.current))
    && (s.prev ==> s.current != "")
  }

  lemma StrippedPush(text: string, c: char)
    ensures Lowered(Stripped(text + [c])) == Lowered(Stripped(text)) + if IsSeparator(c) then "" else [ToLower(c)]
  {
    assert (text + [c])[..|text|] == text;
  }

  lemma ConcatPush(ws: seq<string>, w: string)
    ensures Concat(ws + [w]) == Concat(ws) + w
  {
    assert (ws + [w])[..|ws|] == ws;
  }

  lemma FinishKeeps(s: Scanner)
    requires AreWords(s.words) && (s.current == "" || IsWord(s.current))
    ensures AreWords(Finish(s)) && Concat(Finish(s)) == Concat(s.words) + s.current
  {
    if s.current != "" {
      ConcatPush(s.words, s.current);
    } else {
      assert Concat(s.words) + "" == Concat(s.words);
    }
  }

  lemma FeedReads(s: Scanner, text: string, c: char)
    requires HasRead(s, text)
    ensures HasRead(Feed(s, c), text + [c])
  {
    hide Concat, Lowered, Stripped;
    StrippedPush(text, c);
    FinishKeeps(s);
    var after := Feed(s, c);
    if !IsSeparator(c) {
      assert !IsSeparator(ToLower(c)) && !IsUpper(ToLower(c));
      if IsUpper(c) && s.prev {
        assert after.current == [ToLower(c)];
      } else {
        assert Concat(s.words) + (s.current + [ToLower(c)]) == (Concat(s.words) + s.current) + [ToLower(c)];
      }
    } else {
      assert Concat(after.words) + "" == Concat(after.words);
    }
  }

  lemma {:induction false} ScanReads(text: string)
    ensures HasRead(Scan(IDLE, text), text)
  {
    if text != "" {
      hide HasRead, Feed;
      var n := |text| - 1;
      ScanReads(text[..n]);
      FeedReads(Scan(IDLE, text[..n]), text[..n], text[n]);
      assert text == text[..n] + [text[n]];
    }
  }

  /** Splitting loses nothing but separators and case, and returns words. */
  lemma SplitKeepsLetters(ident: string)
    ensures Concat(Split(ident)) == Lowered(Stripped(ident))
    ensures AreWords(Split(ident))
  {
    ScanReads(ident);
    FinishKeeps(Scan(IDLE, ident));
  }

  // ---------------------------------------------------------------------------
  // The printers
  // ---------------------------------------------------------------------------




  datatype Case = Snake | Kebab | ScreamingSnake | Camel | Pascal | Lower | Upper

  function Join(ws: seq<string>, separator: char): string {
    if |ws| == 0 then ""
    else if |ws| == 1 then ws[0]
    else Join(ws[..|ws| - 1], separator) + [separator] + ws[|ws| - 1]
  }

  function Capitalize(w: string): string {
    if w == "" then "" else [ToUpper(w[0])] + w[1..]
  }

  /** Words run together with capitals, the first one too if `first`. */
  function Humps(ws: seq<string>, first: bool): string {
    if ws == [] then ""
    else
      var n := |ws| - 1;
      Humps(ws[..n], first) + if n == 0 && !first then ws[n] else Capitalize(ws[n])
  }

  function UpperedWords(ws: seq<string>): seq<string> {
    seq(|ws|, i requires 0 <= i < |ws| => Uppered(ws[i]))
  }

  function ApplyCase(ident: string, case_: Case): string {
    var words := Split(ident);
    match case_
    case Snake => Join(words, '_')
    case Kebab => Join(words, '-')
    case ScreamingSnake => Join(UpperedWords(words), '_')
    case Lower => Concat(words)
    case Upper => Uppered(Concat(words))
    case Pascal => Humps(words, true)
    case Camel => Humps(words, false)
  }

  // ---------------------------------------------------------------------------
  // Separated forms
  // ---------------------------------------------------------------------------

  /** Whether the last character of a word counts as lower case or a digit. */
  predicate EndsLow(w: string) {
    w != "" &&
    (IsLower(w[|w| - 1]) || IsDigit(w[|w| - 1]))
  }

  lemma ScanOne(s: Scanner, c: char)
    ensures Scan(s, [c]) == Feed(s, c)
  {
    assert Fold(Feed, s, [c][..0]) == s;
  }

  /** Characters without case changes or separators are only collected. */
  lemma {:induction false} ScanWord(s: Scanner, w: string)
    requires IsWord(w)
    ensures Scan(s, w) == Scanner(s.words, s.current + w, EndsLow(w))
  {
    var n := |w| - 1;
    assert w[n] in w && ToLower(w[n]) == w[n];
    if n > 0 {
      assert forall c <- w[..n] :: c in w;
      ScanWord(s, w[..n]);
      assert w == w[..n] + [w[n]];
    } else {
      ScanOne(s, w[0]);
      assert w == [w[0]];
    }
  }

  lemma ScanConcat(s: Scanner, a: string, b: string)
    ensures Scan(s, a + b) == Scan(Scan(s, a), b)
  {
    FoldConcat(Feed, s, a, b);
  }

  lemma LastWord(ws: seq<string>)
    requires AreWords(ws) && ws != []
    ensures var n := |ws| - 1;
            ws == ws[..n] + [ws[n]] && AreWords(ws[..n]) && IsWord(ws[n])
  {
    hide IsWord;
    var n := |ws| - 1;
    assert ws[n] in ws;
    assert forall w <- ws[..n] :: w in ws;
  }

  lemma JoinLast(ws: seq<string>, separator: char)
    requires |ws| >= 2
    ensures Join(ws, separator) == Join(ws[..|ws| - 1], separator) + [separator] + ws[|ws| - 1]
  {
  }

  /** A separator closes the word before it, and what follows is scanned afresh. */
  lemma ScanPastSeparator(text: string, separator: char, rest: string)
    requires IsSeparator(separator)
    ensures Scan(IDLE, text + [separator] + rest) == Scan(Scanner(Finish(Scan(IDLE, text)), "", false), rest)
  {
    hide Scan;
    ScanConcat(IDLE, text, [separator]);
    ScanOne(Scan(IDLE, text), separator);
    ScanConcat(IDLE, text + [separator], rest);
  }

  lemma JoinOne(ws: seq<string>, separator: char)
    requires |ws| == 1
    ensures Join(ws, separator) == ws[0]
  {
  }

  lemma {:induction false} ScanJoined(ws: seq<string>, separator: char)
    requires AreWords(ws) && IsSeparator(separator) && ws != []
    ensures var n := |ws| - 1;
            Scan(IDLE, Join(ws, separator)) == Scanner(ws[..n], ws[n], EndsLow(ws[n]))
  {
    hide Scan, Join, AreWords, EndsLow, IsSeparator;
    var n := |ws| - 1;
    LastWord(ws);
    assert "" + ws[n] == ws[n];
    if n == 0 {
      JoinOne(ws, separator);
      ScanWord(IDLE, ws[0]);
    } else {
      ScanJoined(ws[..n], separator);
      LastWord(ws[..n]);
      JoinLast(ws, separator);
      ScanPastSeparator(Join(ws[..n], separator), separator, ws[n]);
      ScanWord(Scanner(ws[..n], "", false), ws[n]);
    }
  }

  /** Joined words split into the same words, for every list of words and every separator. */
  lemma JoinedSplitsBack(ws: seq<string>, separator: char)
    requires AreWords(ws) && (separator == '_' || separator == '-' || separator == ' ')
    ensures Split(Join(ws, separator)) == ws
  {
    if ws != [] {
      var n := |ws| - 1;
      ScanJoined(ws, separator);
      assert ws[n] in ws;
      assert ws == ws[..n] + [ws[n]];
    }
  }

  /** Snake and kebab case are lossless: converting on from them is converting from the original, to any case. */
  lemma SeparatedCasesAreLossless(ident: string, via: Case, to: Case)
    requires via == Snake || via == Kebab
    ensures Split(ApplyCase(ident, via)) == Split(ident)
    ensures ApplyCase(ApplyCase(ident, via), to) == ApplyCase(ident, to)
  {
    SplitKeepsLetters(ident);
    JoinedSplitsBack(Split(ident), if via == Snake then '_' else '-');
  }

  // ---------------------------------------------------------------------------
  // Forms without separators
  // ---------------------------------------------------------------------------



  lemma LoweringUndoesUppering(s: string)
    requires forall c <- s :: !IsSeparator(c) && !IsUpper(c)
    ensures Lowered(s) == s && Lowered(Uppered(s)) == s
    ensures forall c <- Uppered(s) :: !IsSeparator(c)
  {
    assert forall i | 0 <= i < |s| :: s[i] in s && ToLower(ToUpper(s[i])) == s[i];
  }

  lemma {:induction false} ConcatOfWords(ws: seq<string>)
    requires AreWords(ws)
    ensures forall c <- Concat(ws) :: !IsSeparator(c) && !IsUpper(c)
  {
    if ws != [] {
      var n := |ws| - 1;
      assert forall w <- ws[..n] :: w in ws;
      assert ws[n] in ws;
      ConcatOfWords(ws[..n]);
    }
  }

  lemma StripLast(s: string)
    requires s != ""
    ensures var n := |s| - 1;
            Stripped(s) == if IsSeparator(s[n]) then Stripped(s[..n]) else Stripped(s[..n]) + [s[n]]
  {
  }

  lemma {:induction false} NothingToStrip(s: string)
    requires forall c <- s :: !IsSeparator(c)
    ensures Stripped(s) == s
  {
    if s != "" {
      hide Stripped, IsSeparator;
      var n := |s| - 1;
      var init, last := s[..n], s[n];
      assert s == init + [last];
      assert forall c <- init :: c in s;
      NothingToStrip(init);
      StripLast(s);
    }
  }

  /** Lower and upper case are idempotent. */
  lemma SolidCasesAreIdempotent(ident: string, to: Case)
    requires to == Lower || to == Upper
    ensures ApplyCase(ApplyCase(ident, to), to) == ApplyCase(ident, to)
  {
    hide Split, Concat, Stripped, Lowered, Uppered;
    var solid, out := Concat(Split(ident)), ApplyCase(ident, to);
    SplitKeepsLetters(ident);
    SplitKeepsLetters(out);
    ConcatOfWords(Split(ident));
    LoweringUndoesUppering(solid);
    NothingToStrip(out);
  }

  /** Whether a word printed with a capital ends in lower case or a digit: a lone letter does not. */
  predicate CapitalEndsLow(w: string) {
    if |w| >= 2 then EndsLow(w) else w != "" && IsDigit(w[0])
  }

  lemma TailEndsLow(w: string)
    requires |w| >= 2
    ensures EndsLow(w[1..]) == EndsLow(w)
  {
  }

  lemma FeedCapital(s: Scanner, c: char)
    requires !IsSeparator(c) && !IsUpper(c) && (s.prev ==> s.current != "")
    ensures Feed(s, ToUpper(c))
         == if IsLower(c) && s.prev then Scanner(s.words + [s.current], [c], false)
            else Scanner(s.words, s.current + [c], IsDigit(c))
  {
    assert ToLower(ToUpper(c)) == c;
    assert "" + [c] == [c];
  }

  /** A capitalized word starts a new word where it can be seen to, and otherwise runs on. */
  lemma ScanCapitalized(s: Scanner, w: string)
    requires IsWord(w) && (s.prev ==> s.current != "")
    ensures Scan(s, Capitalize(w))
         == if IsLower(w[0]) && s.prev then Scanner(s.words + [s.current], w, CapitalEndsLow(w))
            else Scanner(s.words, s.current + w, CapitalEndsLow(w))
  {
    hide Scan, Feed, EndsLow, ToUpper;
    var head, tail := [ToUpper(w[0])], w[1..];
    assert w[0] in w;
    ScanConcat(s, head, tail);
    ScanOne(s, ToUpper(w[0]));
    FeedCapital(s, w[0]);
    assert w == [w[0]] + tail;
    if tail == "" {
      assert head + tail == head;
    } else {
      assert forall c <- tail :: c in w;
      ScanWord(Feed(s, ToUpper(w[0])), tail);
      TailEndsLow(w);
      assert s.current + w == s.current + [w[0]] + tail;
    }
  }

  /** A single capitalized word, such as most variant names, is one word, and snake case only lowers its capital. */
  lemma CapitalizedIsOneWord(w: string)
    requires IsWord(w)
    ensures Split(Capitalize(w)) == [w]
    ensures ApplyCase(Capitalize(w), Snake) == w
  {
    hide Scan, Capitalize;
    ScanCapitalized(IDLE, w);
    assert "" + w == w;
  }

  /** Whether the boundary before word i can be seen once the words run together. */
  predicate BoundaryShows(ws: seq<string>, first: bool, i: nat)
    requires 0 < i < |ws|
  {
    && ws[i] != "" && IsLower(ws[i][0])
    && if i == 1 && !first then EndsLow(ws[0]) else CapitalEndsLow(ws[i - 1])
  }

  predicate AllShow(ws: seq<string>, first: bool) {
    forall i | 0 < i < |ws| :: BoundaryShows(ws, first, i)
  }

  lemma AllShowPush(ws: seq<string>, first: bool)
    requires |ws| >= 2
    ensures var n := |ws| - 1;
            AllShow(ws, first) <==> AllShow(ws[..n], first) && BoundaryShows(ws, first, n)
  {
    hide CapitalEndsLow, EndsLow;
    var n := |ws| - 1;
    assert forall i | 0 < i < n :: BoundaryShows(ws[..n], first, i) == BoundaryShows(ws, first, i);
  }

  /** The words one scan has found, seen as the words it was given. */
  ghost predicate FoundHumps(s: Scanner, ws: seq<string>, first: bool)
    requires ws != []
  {
    var n := |ws| - 1;
    && s.current != ""
    && s.prev == (if n == 0 && !first then EndsLow(ws[0]) else CapitalEndsLow(ws[n]))
    && |s.words| <= n
    && (|s.words| == n <==> AllShow(ws, first))
    && (AllShow(ws, first) ==> s.words == ws[..n] && s.current == ws[n])
  }

  lemma FoundOneMore(s: Scanner, ws: seq<string>, first: bool)
    requires |ws| >= 2 && IsWord(ws[|ws| - 1])
    requires FoundHumps(s, ws[..|ws| - 1], first)
    ensures FoundHumps(Scan(s, Capitalize(ws[|ws| - 1])), ws, first)
  {
    hide Scan, Capitalize, CapitalEndsLow, EndsLow, AllShow;
    var n := |ws| - 1;
    ScanCapitalized(s, ws[n]);
    AllShowPush(ws, first);
    assert ws[..n] == ws[..n][..n - 1] + [ws[n - 1]];
  }

  lemma FoundFirst(ws: seq<string>, first: bool)
    requires |ws| == 1 && IsWord(ws[0])
    ensures FoundHumps(Scan(IDLE, Humps(ws, first)), ws, first)
  {
    hide Scan, Capitalize, CapitalEndsLow, EndsLow;
    assert Humps(ws[..0], first) == "";
    assert Humps(ws, first) == if first then Capitalize(ws[0]) else ws[0];
    ScanCapitalized(IDLE, ws[0]);
    ScanWord(IDLE, ws[0]);
    assert "" + ws[0] == ws[0];
  }

  /** Scanning run-together words finds at most as many words, exactly as many when every boundary shows, and then
      the same ones. */
  lemma {:induction false} ScanHumps(ws: seq<string>, first: bool)
    requires AreWords(ws) && ws != []
    ensures FoundHumps(Scan(IDLE, Humps(ws, first)), ws, first)
  {
    hide Scan, FoundHumps, Capitalize;
    var n := |ws| - 1;
    assert ws[n] in ws;
    if n == 0 {
      FoundFirst(ws, first);
    } else {
      assert forall w <- ws[..n] :: w in ws;
      ScanHumps(ws[..n], first);
      ScanConcat(IDLE, Humps(ws[..n], first), Capitalize(ws[n]));
      FoundOneMore(Scan(IDLE, Humps(ws[..n], first)), ws, first);
    }
  }

  lemma NoHumps(first: bool)
    ensures Split(Humps([], first)) == [] && AllShow([], first)
  {
  }

  /** Pascal and camel case split back into the same words exactly when every boundary shows: the next word starts
      with a letter, and the word before does not end in the capital it was given. */
  lemma HumpsRoundTripIff(ident: string, first: bool)
    ensures var case_ := if first then Pascal else Camel;
            Split(ApplyCase(ident, case_)) == Split(ident) <==> AllShow(Split(ident), first)
  {
    hide Scan, Humps, AllShow;
    var ws := Split(ident);
    SplitKeepsLetters(ident);
    if ws != [] {
      ScanHumps(ws, first);
      assert ws == ws[..|ws| - 1] + [ws[|ws| - 1]];
    } else {
      NoHumps(first);
    }
  }

  predicate IsIdentifier(s: string) {
    forall c <- s :: IsUpper(c) || IsLower(c) || IsDigit(c) || IsSeparator(c)
  }

  lemma {:induction false} IdentifierLetters(s: string)
    requires IsIdentifier(s)
    ensures forall c <- Lowered(Stripped(s)) :: IsLower(c) || IsDigit(c)
  {
    if s != "" {
      var n := |s| - 1;
      assert s[n] in s;
      assert forall c <- s[..n] :: c in s;
      IdentifierLetters(s[..n]);
      StrippedPush(s[..n], s[n]);
      assert s == s[..n] + [s[n]];
    }
  }

  lemma {:induction false} WordsInConcat(ws: seq<string>, w: string, c: char)
    requires w in ws && c in w
    ensures c in Concat(ws)
  {
    var n := |ws| - 1;
    if w != ws[n] {
      assert w in ws[..n];
      WordsInConcat(ws[..n], w, c);
    }
  }

  /** The words of an identifier end in a letter or a digit. */
  lemma IdentifierWordsEndLow(ident: string)
    requires IsIdentifier(ident)
    ensures forall w <- Split(ident) :: EndsLow(w)
  {
    hide Split, Lowered, Stripped, Concat;
    SplitKeepsLetters(ident);
    IdentifierLetters(ident);
    forall w | w in Split(ident)
      ensures EndsLow(w)
    {
      WordsInConcat(Split(ident), w, w[|w| - 1]);
    }
  }

  predicate StartsWithLetter(w: string) {
    w != "" && IsLower(w[0])
  }

  predicate IsLoneLetter(w: string) {
    |w| == 1 && IsLower(w[0])
  }

  /** The next word starts with a letter, and so with a capital, and the word before is more than one capital. */
  predicate CapitalShows(ws: seq<string>, i: nat)
    requires 0 < i < |ws|
  {
    StartsWithLetter(ws[i]) && !IsLoneLetter(ws[i - 1])
  }

  /** For identifiers, Pascal case is lossless exactly when every word but the first starts with a letter and no word
      but the last is a lone letter. */
  lemma PascalRoundTripIff(ident: string, to: Case)
    requires IsIdentifier(ident)
    ensures Split(ApplyCase(ident, Pascal)) == Split(ident)
       <==> forall i | 0 < i < |Split(ident)| :: CapitalShows(Split(ident), i)
    ensures Split(ApplyCase(ident, Pascal)) == Split(ident) ==>
              ApplyCase(ApplyCase(ident, Pascal), to) == ApplyCase(ident, to)
  {
    hide Split, Humps;
    var ws := Split(ident);
    IdentifierWordsEndLow(ident);
    SplitKeepsLetters(ident);
    HumpsRoundTripIff(ident, true);
    forall i | 0 < i < |ws|
      ensures BoundaryShows(ws, true, i) <==> CapitalShows(ws, i)
    {
      assert ws[i] in ws && ws[i - 1] in ws;
    }
  }

  /** Somewhere in the word a letter follows a digit. */
  predicate LetterAfterDigit(w: string, i: nat) {
    0 < i < |w| && IsDigit(w[i - 1]) && IsLower(w[i])
  }

  predicate NoLetterAfterDigit(w: string) {
    forall i: nat | i < |w| :: !LetterAfterDigit(w, i)
  }

  lemma UpperedPush(w: string)
    requires w != ""
    ensures var n := |w| - 1;
            Uppered(w) == Uppered(w[..n]) + [ToUpper(w[n])]
    ensures Uppered(w[..0]) == ""
  {
  }

  /** An upper-case word read after a separator falls apart at every letter that follows a digit, and nowhere else. */
  lemma {:induction false} ScanUppered(words: seq<string>, w: string)
    requires IsWord(w)
    ensures var s := Scan(Scanner(words, "", false), Uppered(w));
            && s.current != ""
            && (s.prev <==> IsDigit(w[|w| - 1]))
            && |s.words| >= |words|
            && (|s.words| == |words| <==> NoLetterAfterDigit(w))
            && (NoLetterAfterDigit(w) ==> s.words == words && s.current == w)
  {
    hide Scan, Feed, Uppered, ToUpper;
    var n := |w| - 1;
    var start := Scanner(words, "", false);
    assert w[n] in w;
    UpperedPush(w);
    if n == 0 {
      ScanOne(start, ToUpper(w[0]));
      FeedCapital(start, w[0]);
      assert Uppered(w) == [ToUpper(w[0])];
      assert "" + [w[0]] == w;
    } else {
      var init := w[..n];
      assert forall c <- init :: c in w;
      ScanUppered(words, init);
      ScanConcat(start, Uppered(init), [ToUpper(w[n])]);
      ScanOne(Scan(start, Uppered(init)), ToUpper(w[n]));
      FeedCapital(Scan(start, Uppered(init)), w[n]);
      assert forall i | 0 <= i < n :: LetterAfterDigit(w, i) == LetterAfterDigit(init, i);
      assert NoLetterAfterDigit(w) <==> NoLetterAfterDigit(init) && !LetterAfterDigit(w, n);
      assert w == init + [w[n]];
    }
  }

  predicate NoneLetterAfterDigit(ws: seq<string>) {
    forall w <- ws :: NoLetterAfterDigit(w)
  }

  lemma {:induction false} ScanScreaming(ws: seq<string>)
    requires AreWords(ws) && ws != []
    ensures var s, n := Scan(IDLE, Join(UpperedWords(ws), '_')), |ws| - 1;
            && s.current != "" && |s.words| >= n
            && (|s.words| == n <==> NoneLetterAfterDigit(ws))
            && (NoneLetterAfterDigit(ws) ==> s.words == ws[..n] && s.current == ws[n])
  {
    hide Scan, Join, NoLetterAfterDigit, AreWords, IsWord, Uppered;
    var n := |ws| - 1;
    LastWord(ws);
    var ups := UpperedWords(ws);
    if n == 0 {
      JoinOne(ups, '_');
      ScanUppered([], ws[0]);
    } else {
      var init := ws[..n];
      ScanScreaming(init);
      LastWord(init);
      assert ups[..n] == UpperedWords(init);
      JoinLast(ups, '_');
      var s := Scan(IDLE, Join(ups[..n], '_'));
      ScanPastSeparator(Join(ups[..n], '_'), '_', ups[n]);
      ScanUppered(s.words + [s.current], ws[n]);
    }
  }

  lemma NothingScreams()
    ensures Split(Join(UpperedWords([]), '_')) == []
  {
    assert UpperedWords([]) == [];
  }

  /** SCREAMING_SNAKE splits back into the same words exactly when no word has a letter right after a digit. */
  lemma ScreamingRoundTripIff(ident: string)
    ensures Split(ApplyCase(ident, ScreamingSnake)) == Split(ident) <==> NoneLetterAfterDigit(Split(ident))
  {
    hide Scan, Join, NoLetterAfterDigit;
    var ws := Split(ident);
    SplitKeepsLetters(ident);
    if ws != [] {
      ScanScreaming(ws);
      assert ws == ws[..|ws| - 1] + [ws[|ws| - 1]];
    } else {
      NothingScreams();
    }
  }

  // ---------------------------------------------------------------------------
  // What each form looks like
  // ---------------------------------------------------------------------------


  const CAPITALS := "ABCDEFGHIJKLMNOPQRSTUVWXYZ"

  const SMALLS := "abcdefghijklmnopqrstuvwxyz"

  lemma CapitalAt(i: nat)
    requires i < 26
    ensures |CAPITALS| == 26 && CAPITALS[i] as int == 65 + i
  {
  }

  lemma SmallAt(i: nat)
    requires i < 26
    ensures |SMALLS| == 26 && SMALLS[i] as int == 97 + i
  {
  }

  /** The letters pair up as in the alphabet, and everything else stays. */
  lemma AlphabetPairs(i: nat, c: char)
    requires i < 26
    ensures |CAPITALS| == |SMALLS| == 26
    ensures ToLower(CAPITALS[i]) == SMALLS[i] && ToUpper(SMALLS[i]) == CAPITALS[i]
    ensures c !in CAPITALS ==> ToLower(c) == c
    ensures c !in SMALLS ==> ToUpper(c) == c
  {
    CapitalAt(i);
    SmallAt(i);
    if IsUpper(c) {
      CapitalAt(c as int - 65);
      assert c == CAPITALS[c as int - 65];
    }
    if IsLower(c) {
      SmallAt(c as int - 97);
      assert c == SMALLS[c as int - 97];
    }
  }

  /** Joined words hold their letters, the one separator between any two of them, and nothing else. */
  lemma {:induction false} JoinShape(ws: seq<string>, separator: char)
    requires AreWords(ws)
    ensures forall c <- Join(ws, separator) :: c == separator || (!IsSeparator(c) && !IsUpper(c))
    ensures |Join(ws, separator)| == |Concat(ws)| + if ws == [] then 0 else |ws| - 1
  {
    if ws != [] {
      LastWord(ws);
      var n := |ws| - 1;
      if n > 0 {
        JoinShape(ws[..n], separator);
        JoinLast(ws, separator);
      } else {
        assert Concat(ws) == Concat(ws[..0]) + ws[0];
      }
    }
  }

  /** Snake and kebab case have no upper case, and no separator but '_' and '-' respectively, one between any two
      words. With the words they split back into, that leaves one text each. */
  lemma SeparatedForms(ident: string)
    ensures forall c <- ApplyCase(ident, Snake) :: c == '_' || (!IsSeparator(c) && !IsUpper(c))
    ensures forall c <- ApplyCase(ident, Kebab) :: c == '-' || (!IsSeparator(c) && !IsUpper(c))
    ensures var letters, words := |Stripped(ident)|, |Split(ident)|;
            && |ApplyCase(ident, Snake)| == letters + (if words == 0 then 0 else words - 1)
            && |ApplyCase(ident, Kebab)| == letters + (if words == 0 then 0 else words - 1)
  {
    hide Split, Join, Concat, Stripped;
    SplitKeepsLetters(ident);
    JoinShape(Split(ident), '_');
    JoinShape(Split(ident), '-');
  }

  lemma UpperedConcat(a: string, b: string)
    ensures Uppered(a + b) == Uppered(a) + Uppered(b)
  {
  }

  lemma UnderscoreStays()
    ensures Uppered(['_']) == ['_']
  {
  }

  lemma {:induction false} UpperedJoin(ws: seq<string>)
    ensures Join(UpperedWords(ws), '_') == Uppered(Join(ws, '_'))
  {
    if |ws| >= 2 {
      hide Join, Uppered;
      var n := |ws| - 1;
      UpperedJoin(ws[..n]);
      JoinLast(ws, '_');
      JoinLast(UpperedWords(ws), '_');
      assert UpperedWords(ws)[..n] == UpperedWords(ws[..n]);
      UpperedConcat(Join(ws[..n], '_') + ['_'], ws[n]);
      UpperedConcat(Join(ws[..n], '_'), ['_']);
      assert Uppered(['_']) == ['_'] by { UnderscoreStays(); }
    }
  }

  lemma NoLowerLeft(s: string)
    ensures forall c <- Uppered(s) :: !IsLower(c)
  {
    assert forall i | 0 <= i < |s| :: !IsLower(Uppered(s)[i]);
  }

  /** SCREAMING_SNAKE is snake case raised, lower case is the identifier's own letters lowered, and upper case is lower
      case raised; what is raised has no lower-case letter left. */
  lemma RaisedForms(ident: string)
    ensures ApplyCase(ident, ScreamingSnake) == Uppered(ApplyCase(ident, Snake))
    ensures ApplyCase(ident, Lower) == Lowered(Stripped(ident))
    ensures ApplyCase(ident, Upper) == Uppered(ApplyCase(ident, Lower))
    ensures forall c <- ApplyCase(ident, Lower) :: !IsSeparator(c) && !IsUpper(c)
    ensures forall c <- ApplyCase(ident, Upper) :: !IsLower(c)
    ensures forall c <- ApplyCase(ident, ScreamingSnake) :: !IsLower(c)
  {
    hide Split, Join, Concat, Stripped, Uppered, Lowered;
    SplitKeepsLetters(ident);
    ConcatOfWords(Split(ident));
    UpperedJoin(Split(ident));
    NoLowerLeft(ApplyCase(ident, Snake));
    NoLowerLeft(ApplyCase(ident, Lower));
  }

  /** Position p of the run-together words is where a word starts. */
  ghost predicate StartsWord(ws: seq<string>, p: nat) {
    exists k :: 0 <= k < |ws| && |Concat(ws[..k])| == p
  }

  lemma {:induction false} ConcatGrows(ws: seq<string>, k: nat)
    requires AreWords(ws) && k <= |ws|
    ensures |Concat(ws[..k])| <= |Concat(ws)|
    ensures k < |ws| ==> |Concat(ws[..k])| < |Concat(ws)|
  {
    if k < |ws| {
      LastWord(ws);
      var n := |ws| - 1;
      ConcatGrows(ws[..n], k);
      assert ws[..n][..k] == ws[..k];
    } else {
      assert ws[..k] == ws;
    }
  }

  /** Where words start before the last one is where they start without it; and the last one starts where the others
      end. */
  lemma StartsEarlier(ws: seq<string>, p: nat)
    requires AreWords(ws) && ws != []
    ensures var n := |ws| - 1;
            && (p < |Concat(ws[..n])| ==> (StartsWord(ws, p) <==> StartsWord(ws[..n], p)))
            && (p >= |Concat(ws[..n])| ==> (StartsWord(ws, p) <==> p == |Concat(ws[..n])|))
  {
    hide Concat;
    LastWord(ws);
    var n := |ws| - 1;
    forall k | 0 <= k < n
      ensures ws[..n][..k] == ws[..k] && |Concat(ws[..k])| < |Concat(ws[..n])|
    {
      assert ws[..n][..k] == ws[..k];
      ConcatGrows(ws[..n], k);
    }
    if p < |Concat(ws[..n])| && StartsWord(ws, p) {
      var k :| 0 <= k < |ws| && |Concat(ws[..k])| == p;
      assert ws[..n][..k] == ws[..k];
    }
    if p < |Concat(ws[..n])| && StartsWord(ws[..n], p) {
      var k :| 0 <= k < n && |Concat(ws[..n][..k])| == p;
      assert ws[..n][..k] == ws[..k];
    }
  }

  lemma CapitalizeAt(w: string, p: nat)
    requires p < |w|
    ensures |Capitalize(w)| == |w|
    ensures Capitalize(w)[p] == if p == 0 then ToUpper(w[p]) else w[p]
  {
  }

  lemma HumpsLast(ws: seq<string>, first: bool)
    requires ws != []
    ensures var n := |ws| - 1;
            Humps(ws, first) == Humps(ws[..n], first) + if n == 0 && !first then ws[n] else Capitalize(ws[n])
  {
  }

  /** Run together, the words are their own letters, with a capital wherever a word starts; at the very start only if
      asked for. */
  lemma {:induction false} HumpAt(ws: seq<string>, first: bool, p: nat)
    requires AreWords(ws)
    ensures |Humps(ws, first)| == |Concat(ws)|
    ensures p < |Concat(ws)| ==>
              Humps(ws, first)[p]
              == if StartsWord(ws, p) && (p > 0 || first) then ToUpper(Concat(ws)[p]) else Concat(ws)[p]
  {
    if ws != [] {
      hide Humps, Capitalize, StartsWord, ToUpper;
      var n := |ws| - 1;
      LastWord(ws);
      HumpsLast(ws, first);
      HumpAt(ws[..n], first, p);
      CapitalizeAt(ws[n], 0);
      StartsEarlier(ws, p);
      var before := |Concat(ws[..n])|;
      assert Concat(ws) == Concat(ws[..n]) + ws[n];
      ConcatGrows(ws[..n], 0);
      if before <= p < |Concat(ws)| {
        CapitalizeAt(ws[n], p - before);
      }
    } else {
      NoHumps(first);
    }
  }

  /** Pascal and camel case, letter by letter: those of lower case, raised where a word starts; only at the very start
      do the two differ. */
  lemma HumpForms(ident: string, p: nat)
    ensures |ApplyCase(ident, Pascal)| == |ApplyCase(ident, Camel)| == |ApplyCase(ident, Lower)|
    ensures p < |ApplyCase(ident, Lower)| ==>
              var c, starts := ApplyCase(ident, Lower)[p], StartsWord(Split(ident), p);
              && ApplyCase(ident, Pascal)[p] == (if starts then ToUpper(c) else c)
              && ApplyCase(ident, Camel)[p] == (if starts && p > 0 then ToUpper(c) else c)
  {
    hide Split, Humps, StartsWord, ToUpper;
    SplitKeepsLetters(ident);
    HumpAt(Split(ident), true, p);
    HumpAt(Split(ident), false, p);
  }
}
