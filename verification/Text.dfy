/** The text handling that commands, queries and headers share: ASCII decoding,
    splitting on white space or a separator, and decimal port numbers. */
module Text {
  import opened Wrappers
  import opened BigEndian

  predicate IsAscii(raw: Bytes) {
    forall i | 0 <= i < |raw| :: raw[i] < 0x80
  }

  /** The characters of an ASCII byte string. */
  function Decode(raw: Bytes): (s: string)
    ensures |s| == |raw|
  {
    seq(|raw|, i requires 0 <= i < |raw| => raw[i] as char)
  }

  predicate AsciiText(s: string) {
    forall i | 0 <= i < |s| :: s[i] < 0x80 as char
  }

  /** The bytes of an ASCII text. */
  function Encode(s: string): (raw: Bytes)
    requires AsciiText(s)
    ensures IsAscii(raw) && Decode(raw) == s
  {
    seq(|s|, i requires 0 <= i < |s| => s[i] as int)
  }

  /** The bytes are this text in ASCII, one byte to a character. */
  ghost predicate Spells(raw: Bytes, s: string) {
    |raw| == |s| && forall i | 0 <= i < |raw| :: raw[i] == s[i] as int && raw[i] <= 127
  }

  /** Decoding reads the one text that the bytes spell, if they spell any. */
  lemma DecodeReads(raw: Bytes, s: string)
    ensures IsAscii(raw) && Decode(raw) == s <==> Spells(raw, s)
  {
    if IsAscii(raw) && Decode(raw) == s {
      forall i | 0 <= i < |raw| ensures raw[i] == s[i] as int {
        assert Decode(raw)[i] == s[i];
      }
    }
    if Spells(raw, s) {
      assert forall i | 0 <= i < |raw| :: Decode(raw)[i] == s[i];
    }
  }

  /** The bytes of a text of single-byte characters. */
  function ToBytes(s: string): (raw: Bytes)
    ensures |raw| == |s|
  {
    seq(|s|, i requires 0 <= i < |s| => s[i] as int % 0x100)
  }

  /** White space between the words of a command or a query: space and U+0009 to U+000D. */
  predicate IsSpace(c: char) {
    c == ' ' || 9 as char <= c <= 13 as char
  }

  /** White space between the words of an HTTP request line: the same without U+000B. */
  predicate IsHttpSpace(c: char) {
    IsSpace(c) && c != 11 as char
  }

  predicate SpaceFree(s: string, space: char -> bool) {
    forall i | 0 <= i < |s| :: !space(s[i])
  }

  /** How many characters come before the first white space. */
  function WordLength(s: string, space: char -> bool): (n: nat)
    ensures n <= |s| && SpaceFree(s[..n], space)
    ensures n < |s| ==> space(s[n])
  {
    if s == [] || space(s[0]) then 0 else 1 + WordLength(s[1..], space)
  }

  /** The maximal runs of characters that are not white space, in order. */
  function Words(s: string, space: char -> bool): (words: seq<string>)
    ensures forall i | 0 <= i < |words| :: words[i] != [] && SpaceFree(words[i], space)
    decreases |s|
  {
    if s == [] then []
    else if space(s[0]) then Words(s[1..], space)
    else
      var n := WordLength(s, space);
      [s[..n]] + Words(s[n..], space)
  }

  /** The pieces of `s` between occurrences of `separator`; never empty. */
  function Split(s: string, separator: char): (pieces: seq<string>)
    ensures |pieces| > 0
  {
    if s == [] then [[]]
    else
      var rest := Split(s[1..], separator);
      if s[0] == separator then [[]] + rest
      else [[s[0]] + rest[0]] + rest[1..]
  }

  predicate IsDigit(c: char) {
    '0' <= c <= '9'
  }

  predicate AllDigits(s: string) {
    forall i | 0 <= i < |s| :: IsDigit(s[i])
  }

  /** The number a string of digits stands for. */
  function DigitsValue(s: string): nat
    requires AllDigits(s)
  {
    if s == [] then 0
    else
      assert IsDigit(s[|s| - 1]);
      10 * DigitsValue(s[..|s| - 1]) + (s[|s| - 1] as int - '0' as int)
  }

  /** A 16-bit number in decimal. One leading plus sign and any number of
      leading zeros are accepted; a minus sign is not. */
  function ParseU16(s: string): Option<u16> {
    var digits := if |s| > 1 && s[0] == '+' then s[1..] else s;
    if digits == [] || !AllDigits(digits) then None
    else if DigitsValue(digits) >= 0x1_0000 then None
    else Some(DigitsValue(digits))
  }

  /** Decimal digits without leading zeros. */
  function ShowNat(n: nat): (s: string)
    ensures s != [] && AsciiText(s) && SpaceFree(s, IsSpace)
    ensures AllDigits(s)
  {
    var last := ('0' as int + n % 10) as char;
    if n < 10 then [last] else ShowNat(n / 10) + [last]
  }

  lemma {:induction false} ShowNatValue(n: nat)
    ensures DigitsValue(ShowNat(n)) == n
  {
    if n >= 10 {
      ShowNatValue(n / 10);
      var s := ShowNat(n);
      assert s[..|s| - 1] == ShowNat(n / 10);
    }
  }

  /** A number in decimal digits, with any number of zeros in front. */
  ghost predicate Writes(digits: string, n: nat) {
    exists zeros :: Only(zeros, "0") && digits == zeros + ShowNat(n)
  }

  lemma ShowOneMore(v: nat, digit: nat)
    requires digit < 10
    ensures ShowNat(10 * v + digit) == (if v == 0 then [] else ShowNat(v)) + [('0' as int + digit) as char]
  {
    assert (10 * v + digit) / 10 == v && (10 * v + digit) % 10 == digit;
  }

  lemma WritesOneMore(front: string, v: nat, digit: nat)
    requires digit < 10 && Writes(front, v)
    ensures Writes(front + [('0' as int + digit) as char], 10 * v + digit)
  {
    var zeros :| Only(zeros, "0") && front == zeros + ShowNat(v);
    var last := [('0' as int + digit) as char];
    ShowOneMore(v, digit);
    if v == 0 {
      assert ShowNat(0) == "0" && Only(zeros + "0", "0");
    } else {
      assert front + last == zeros + (ShowNat(v) + last);
    }
  }

  lemma DigitWrites(digit: nat)
    requires digit < 10
    ensures Writes([('0' as int + digit) as char], digit)
  {
    ShowOneMore(0, digit);
    assert Only("", "0") && "" + ShowNat(digit) == [('0' as int + digit) as char];
  }

  lemma LastDigit(front: string, last: char)
    requires AllDigits(front) && IsDigit(last)
    ensures AllDigits(front + [last])
    ensures DigitsValue(front + [last]) == 10 * DigitsValue(front) + (last as int - '0' as int)
  {
    assert (front + [last])[..|front|] == front;
  }

  /** Every string of digits writes its value. */
  lemma {:induction false} DigitsWrite(s: string)
    requires s != [] && AllDigits(s)
    ensures Writes(s, DigitsValue(s))
  {
    var front, last := s[..|s| - 1], s[|s| - 1];
    assert s == front + [last] && IsDigit(last) && AllDigits(front);
    LastDigit(front, last);
    if front == [] {
      DigitWrites(last as int - '0' as int);
    } else {
      DigitsWrite(front);
      WritesOneMore(front, DigitsValue(front), last as int - '0' as int);
    }
  }

  lemma {:induction false} ZerosAddNothing(zeros: string, digits: string)
    requires Only(zeros, "0") && digits != [] && AllDigits(digits)
    ensures AllDigits(zeros + digits)
    ensures DigitsValue(zeros + digits) == DigitsValue(digits)
    decreases |digits|
  {
    var front := digits[..|digits| - 1];
    assert (zeros + digits)[..|zeros + digits| - 1] == zeros + front;
    if front == [] {
      assert zeros + front == zeros;
      OnlyZeros(zeros);
    } else {
      ZerosAddNothing(zeros, front);
    }
  }

  lemma {:induction false} OnlyZeros(zeros: string)
    requires Only(zeros, "0")
    ensures AllDigits(zeros)
    ensures DigitsValue(zeros) == 0
  {
    if zeros != [] {
      OnlyZeros(zeros[..|zeros| - 1]);
      assert zeros[|zeros| - 1] in "0";
    }
  }

  /** A port's decimal digits with any zeros and at most one plus sign in front. */
  ghost predicate WritesPort(s: string, port: u16) {
    Writes(s, port) || (s != [] && s[0] == '+' && Writes(s[1..], port))
  }

  /** These are the texts that parse as a port, and there are no others. */
  lemma ParseU16Reads(s: string, port: u16)
    ensures ParseU16(s) == Some(port) <==> WritesPort(s, port)
  {
    forall digits | Writes(digits, port)
      ensures digits != [] && AllDigits(digits) && DigitsValue(digits) == port
    {
      var zeros :| Only(zeros, "0") && digits == zeros + ShowNat(port);
      ZerosAddNothing(zeros, ShowNat(port));
      ShowNatValue(port);
    }
    if ParseU16(s) == Some(port) {
      DigitsWrite(if |s| > 1 && s[0] == '+' then s[1..] else s);
    }
  }

  /** A printed port number parses back, with or without a plus sign in front. */
  lemma ParseShowU16(port: u16)
    ensures ParseU16(ShowNat(port)) == Some(port)
    ensures ParseU16("+" + ShowNat(port)) == Some(port)
  {
    ShowNatValue(port);
    assert ("+" + ShowNat(port))[1..] == ShowNat(port);
  }

  // ----- texts made of words -----

  /** White space in a command or a query. */
  const WHITE_SPACE: string := [' ', '\t', '\n', 11 as char, 12 as char, '\r']

  /** White space in the request line of a CONNECT header. */
  const HTTP_WHITE_SPACE: string := [' ', '\t', '\n', 12 as char, '\r']

  /** The words with a gap in front of each and one behind the last. */
  function Spaced(gaps: seq<string>, words: seq<string>): string
    requires |gaps| == |words| + 1
  {
    if words == [] then gaps[0] else gaps[0] + words[0] + Spaced(gaps[1..], words[1..])
  }

  ghost predicate Only(s: string, blanks: string) {
    forall i | 0 <= i < |s| :: s[i] in blanks
  }

  ghost predicate Without(s: string, blanks: string) {
    forall i | 0 <= i < |s| :: s[i] !in blanks
  }

  /** The gaps are made of blanks and the words of other characters, and only
      the first and the last gap can be empty. */
  ghost predicate SpacedBy(gaps: seq<string>, words: seq<string>, blanks: string) {
    && |gaps| == |words| + 1
    && (forall i | 0 <= i < |gaps| :: Only(gaps[i], blanks))
    && (forall i | 0 < i < |words| :: gaps[i] != [])
    && (forall i | 0 <= i < |words| :: words[i] != [] && Without(words[i], blanks))
  }

  /** The text is these words in this order, with blanks between them and any
      blanks in front and behind. */
  ghost predicate HasWords(s: string, words: seq<string>, blanks: string) {
    exists gaps :: SpacedBy(gaps, words, blanks) && s == Spaced(gaps, words)
  }

  ghost predicate Separates(space: char -> bool, blanks: string) {
    forall c :: space(c) <==> c in blanks
  }

  lemma {:induction false} SkipBlanks(gap: string, s: string, space: char -> bool, blanks: string)
    requires Separates(space, blanks) && Only(gap, blanks)
    ensures Words(gap + s, space) == Words(s, space)
  {
    if gap == [] {
      assert gap + s == s;
    } else {
      assert (gap + s)[1..] == gap[1..] + s;
      SkipBlanks(gap[1..], s, space, blanks);
    }
  }

  lemma {:induction false} WordLengthOfWord(w: string, rest: string, space: char -> bool)
    requires SpaceFree(w, space) && (rest == [] || space(rest[0]))
    ensures WordLength(w + rest, space) == |w|
  {
    if w == [] {
      assert w + rest == rest;
    } else {
      assert (w + rest)[1..] == w[1..] + rest;
      WordLengthOfWord(w[1..], rest, space);
    }
  }

  /** A word with nothing or a blank behind it contributes exactly that word. */
  lemma WordsCons(w: string, rest: string, space: char -> bool)
    requires w != [] && SpaceFree(w, space) && (rest == [] || space(rest[0]))
    ensures Words(w + rest, space) == [w] + Words(rest, space)
  {
    var s := w + rest;
    WordLengthOfWord(w, rest, space);
    assert s[0] == w[0];
    assert s[..|w|] == w && s[|w|..] == rest;
  }

  /** Splitting finds the words of every text that is made of words. */
  lemma {:induction false} SpacedReads(gaps: seq<string>, words: seq<string>, space: char -> bool, blanks: string)
    requires Separates(space, blanks) && SpacedBy(gaps, words, blanks)
    ensures Words(Spaced(gaps, words), space) == words
  {
    if words == [] {
      SkipBlanks(gaps[0], [], space, blanks);
      assert gaps[0] + [] == gaps[0];
    } else {
      var rest := Spaced(gaps[1..], words[1..]);
      assert SpacedBy(gaps[1..], words[1..], blanks);
      SpacedReads(gaps[1..], words[1..], space, blanks);
      assert gaps[0] + words[0] + rest == gaps[0] + (words[0] + rest);
      SkipBlanks(gaps[0], words[0] + rest, space, blanks);
      SpacedBegins(gaps[1..], words[1..], blanks);
      assert Without(words[0], blanks);
      WordsCons(words[0], rest, space);
      assert [words[0]] + words[1..] == words;
    }
  }

  /** What comes behind a word begins with a blank, if there is anything. */
  lemma SpacedBegins(gaps: seq<string>, words: seq<string>, blanks: string)
    requires SpacedBy(gaps, words, blanks) && (words != [] ==> gaps[0] != [])
    ensures Spaced(gaps, words) == [] || Spaced(gaps, words)[0] in blanks
  {
    if gaps[0] != [] {
      assert Spaced(gaps, words)[0] == gaps[0][0];
    }
  }

  lemma BlankInFront(c: char, gaps: seq<string>, words: seq<string>, blanks: string)
    requires SpacedBy(gaps, words, blanks) && c in blanks
    ensures var longer := [[c] + gaps[0]] + gaps[1..];
      SpacedBy(longer, words, blanks) && Spaced(longer, words) == [c] + Spaced(gaps, words)
  {
    assert ([[c] + gaps[0]] + gaps[1..])[1..] == gaps[1..];
  }

  lemma SpacedHead(gaps: seq<string>, words: seq<string>)
    requires |gaps| == |words| + 1 && words != [] && words[0] != []
    ensures gaps[0] == [] ==> words[0][..1] <= Spaced(gaps, words)
  {
  }

  lemma WordInFront(w: string, gaps: seq<string>, words: seq<string>, blanks: string)
    requires SpacedBy(gaps, words, blanks) && w != [] && Without(w, blanks)
    requires Spaced(gaps, words) == [] || Spaced(gaps, words)[0] in blanks
    ensures SpacedBy([[]] + gaps, [w] + words, blanks)
    ensures Spaced([[]] + gaps, [w] + words) == w + Spaced(gaps, words)
  {
    assert ([[]] + gaps)[1..] == gaps && ([w] + words)[1..] == words;
    if words != [] {
      SpacedHead(gaps, words);
    }
  }

  /** Every text is made of the words that splitting finds in it. */
  lemma {:induction false} WordsSpace(s: string, space: char -> bool, blanks: string) returns (gaps: seq<string>)
    requires Separates(space, blanks)
    ensures SpacedBy(gaps, Words(s, space), blanks) && s == Spaced(gaps, Words(s, space))
    decreases |s|
  {
    if s == [] {
      gaps := [[]];
    } else if space(s[0]) {
      gaps := WordsSpace(s[1..], space, blanks);
      BlankInFront(s[0], gaps, Words(s[1..], space), blanks);
      gaps := [[s[0]] + gaps[0]] + gaps[1..];
      assert s == [s[0]] + s[1..];
    } else {
      var n := WordLength(s, space);
      gaps := WordsSpace(s[n..], space, blanks);
      WordInFront(s[..n], gaps, Words(s[n..], space), blanks);
      gaps := [[]] + gaps;
      assert s == s[..n] + s[n..];
    }
  }

  /** Splitting finds these words exactly in the texts made of them. */
  lemma WordsRead(s: string, words: seq<string>, space: char -> bool, blanks: string)
    requires Separates(space, blanks)
    ensures Words(s, space) == words <==> HasWords(s, words, blanks)
  {
    forall gaps | SpacedBy(gaps, words, blanks) && s == Spaced(gaps, words) ensures Words(s, space) == words {
      SpacedReads(gaps, words, space, blanks);
    }
    if Words(s, space) == words {
      var gaps := WordsSpace(s, space, blanks);
    }
  }

  /** A command or a query splits into these words exactly if it is made of
      them, with any run of the six white space characters around them. */
  lemma WordsAre(s: string, words: seq<string>)
    ensures Words(s, IsSpace) == words <==> HasWords(s, words, WHITE_SPACE)
  {
    WordsRead(s, words, IsSpace, WHITE_SPACE);
  }

  lemma HttpWordsAre(s: string, words: seq<string>)
    ensures Words(s, IsHttpSpace) == words <==> HasWords(s, words, HTTP_WHITE_SPACE)
  {
    WordsRead(s, words, IsHttpSpace, HTTP_WHITE_SPACE);
  }

  /** One word by itself. */
  lemma OneWord(w: string, blanks: string)
    requires w != [] && Without(w, blanks)
    ensures HasWords(w, [w], blanks)
  {
    var gaps: seq<string> := [[], []];
    assert [w][1..] == [] && gaps[1..] == [[]];
    assert SpacedBy(gaps, [w], blanks) && Spaced(gaps, [w]) == w;
  }

  /** The rest of a text behind a word: a blank and more words, or none. */
  ghost predicate Follows(s: string, words: seq<string>, blanks: string) {
    exists gaps :: SpacedBy(gaps, words, blanks) && s == Spaced(gaps, words) && (words != [] ==> gaps[0] != [])
  }

  lemma WordLast(w: string, blanks: string)
    requires ' ' in blanks && w != [] && Without(w, blanks)
    ensures Follows(" " + w, [w], blanks)
  {
    var gaps, words := [" ", ""], [w];
    assert gaps[1..] == [""] && words[1..] == [];
    assert SpacedBy(gaps, words, blanks) && Spaced(gaps, words) == " " + w;
  }

  lemma GapAndWord(gap: string, w: string, gaps: seq<string>, words: seq<string>, blanks: string)
    requires SpacedBy(gaps, words, blanks) && (words != [] ==> gaps[0] != [])
    requires Only(gap, blanks) && w != [] && Without(w, blanks)
    ensures SpacedBy([gap] + gaps, [w] + words, blanks)
    ensures Spaced([gap] + gaps, [w] + words) == gap + w + Spaced(gaps, words)
  {
    assert ([gap] + gaps)[1..] == gaps && ([w] + words)[1..] == words;
  }

  lemma WordFollows(w: string, s: string, words: seq<string>, blanks: string)
    requires ' ' in blanks && Follows(s, words, blanks) && w != [] && Without(w, blanks)
    ensures Follows(" " + w + s, [w] + words, blanks)
  {
    var gaps :| SpacedBy(gaps, words, blanks) && s == Spaced(gaps, words) && (words != [] ==> gaps[0] != []);
    GapAndWord(" ", w, gaps, words, blanks);
    assert ([" "] + gaps)[0] == " ";
  }

  lemma WordFirst(w: string, s: string, words: seq<string>, blanks: string)
    requires Follows(s, words, blanks) && w != [] && Without(w, blanks)
    ensures HasWords(w + s, [w] + words, blanks)
  {
    var gaps :| SpacedBy(gaps, words, blanks) && s == Spaced(gaps, words) && (words != [] ==> gaps[0] != []);
    GapAndWord("", w, gaps, words, blanks);
    assert "" + w + s == w + s;
  }

  /** Words with single spaces between them. */
  lemma TwoWords(a: string, b: string, blanks: string)
    requires ' ' in blanks
    requires a != [] && b != [] && Without(a, blanks) && Without(b, blanks)
    ensures HasWords(a + (" " + b), [a, b], blanks)
  {
    WordLast(b, blanks);
    WordFirst(a, " " + b, [b], blanks);
    assert [a] + [b] == [a, b];
  }

  lemma TwoWordsNeedThree(s: string, a: string, b: string, blanks: string)
    requires HasWords(s, [a, b], blanks)
    ensures |s| >= 3
  {
    var words := [a, b];
    var gaps :| SpacedBy(gaps, words, blanks) && s == Spaced(gaps, words);
    assert words[1..] == [b] && gaps[1..][0] == gaps[1] != [];
    assert words[0] != [] && words[1] != [];
    assert |Spaced(gaps[1..], words[1..])| >= 2;
  }

  lemma ThreeWords(a: string, b: string, c: string, blanks: string)
    requires ' ' in blanks
    requires a != [] && b != [] && c != [] && Without(a, blanks) && Without(b, blanks) && Without(c, blanks)
    ensures HasWords(a + (" " + b + (" " + c)), [a, b, c], blanks)
  {
    WordLast(c, blanks);
    WordFollows(b, " " + c, [c], blanks);
    WordFirst(a, " " + b + (" " + c), [b] + [c], blanks);
    assert [a] + ([b] + [c]) == [a, b, c];
  }

  lemma FourWords(a: string, b: string, c: string, d: string, blanks: string)
    requires ' ' in blanks
    requires a != [] && b != [] && Without(a, blanks) && Without(b, blanks)
    requires c != [] && d != [] && Without(c, blanks) && Without(d, blanks)
    ensures HasWords(a + (" " + b + (" " + c + (" " + d))), [a, b, c, d], blanks)
  {
    WordLast(d, blanks);
    WordFollows(c, " " + d, [d], blanks);
    WordFollows(b, " " + c + (" " + d), [c] + [d], blanks);
    WordFirst(a, " " + b + (" " + c + (" " + d)), [b] + ([c] + [d]), blanks);
    assert [a] + ([b] + ([c] + [d])) == [a, b, c, d];
  }

  lemma {:induction false} SplitAlone(piece: string, separator: char)
    requires separator !in piece
    ensures Split(piece, separator) == [piece]
  {
    if piece != [] {
      SplitAlone(piece[1..], separator);
      assert [piece[0]] + piece[1..] == piece;
    }
  }

  /** A piece and a separator in front contribute exactly that piece. */
  lemma {:induction false} SplitCons(piece: string, separator: char, rest: string)
    requires separator !in piece
    ensures Split(piece + [separator] + rest, separator) == [piece] + Split(rest, separator)
  {
    var s := piece + [separator] + rest;
    if piece == [] {
      assert s[1..] == rest;
    } else {
      assert s[1..] == piece[1..] + [separator] + rest;
      SplitCons(piece[1..], separator, rest);
      assert [piece[0]] + piece[1..] == piece;
    }
  }

  /** A text that begins with a word has that beginning in its first word. */
  lemma FirstWord(start: string, s: string, space: char -> bool)
    requires start <= s && start != [] && SpaceFree(start, space)
    ensures Words(s, space) != [] && start <= Words(s, space)[0]
  {
    WordLengthAtLeast(start, s, space);
    assert s[0] == start[0];
    assert s[..WordLength(s, space)][..|start|] == s[..|start|] == start;
  }

  lemma {:induction false} WordLengthAtLeast(start: string, s: string, space: char -> bool)
    requires start <= s && SpaceFree(start, space)
    ensures WordLength(s, space) >= |start|
  {
    if start != [] {
      assert s[0] == start[0] && start[1..] <= s[1..];
      WordLengthAtLeast(start[1..], s[1..], space);
    }
  }

  /** A blank at the end adds no word. */
  lemma {:induction false} WordsBefore(s: string, c: char, space: char -> bool)
    requires space(c)
    ensures Words(s + [c], space) == Words(s, space)
    decreases |s|
  {
    if s == [] {
      assert [] + [c] == [c] && [c][1..] == [];
    } else if space(s[0]) {
      assert (s + [c])[1..] == s[1..] + [c];
      WordsBefore(s[1..], c, space);
    } else {
      var n := WordLength(s, space);
      assert s == s[..n] + s[n..] && s + [c] == s[..n] + (s[n..] + [c]);
      WordsCons(s[..n], s[n..] + [c], space);
      WordsBefore(s[n..], c, space);
    }
  }

  /** What comes before the first separator, and the rest. */
  lemma {:induction false} UpTo(s: string, separator: char) returns (before: string, rest: string)
    ensures s == before + rest && separator !in before && (rest == [] || rest[0] == separator)
  {
    before, rest := [], s;
    if s != [] && s[0] != separator {
      before, rest := UpTo(s[1..], separator);
      before := [s[0]] + before;
    }
  }

  /** Splitting in two undone: the halves with the separator between them. */
  lemma {:induction false} SplitInTwo(s: string, separator: char)
    ensures |Split(s, separator)| == 1 ==> Split(s, separator)[0] == s && separator !in s
    ensures |Split(s, separator)| == 2 ==>
      var halves := Split(s, separator);
      s == halves[0] + [separator] + halves[1] && separator !in halves[0] && separator !in halves[1]
  {
    if s != [] {
      SplitInTwo(s[1..], separator);
      assert s == [s[0]] + s[1..];
    }
  }
}
