/**
 * Token preprocessing (main/app/utils/preprocessor.py): full-width to
 * half-width conversion, emoji removal, delimiter replacement, whitespace
 * splitting and the filter on digits, `$` and `%`.
 */
module Preprocessor {
  import opened SeqUtil

  // ---------------------------------------------------------------------
  // full2half
  // ---------------------------------------------------------------------

  /** The full-width forms of the printable ASCII characters '!'..'~'. */
  predicate IsFullWidthAscii(c: char) {
    '\U{FF01}' <= c <= '\U{FF5E}'
  }

  /** The half-width counterpart of one character. */
  function HalfChar(c: char): char {
    if c == '\U{3000}' then ' '
    else if IsFullWidthAscii(c) then (c as int - 0xFEE0) as char
    else c
  }

  /** A string with no ideographic space and no full-width ASCII form. */
  predicate IsHalfWidth(s: string) {
    forall i :: 0 <= i < |s| ==> s[i] != '\U{3000}' && !IsFullWidthAscii(s[i])
  }

  /** full2half as a function: `HalfChar` applied code point by code point. */
  function HalfWidth(s: string): (r: string)
    ensures |r| == |s|
    ensures forall i :: 0 <= i < |s| ==> r[i] == HalfChar(s[i])
  {
    if s == [] then [] else [HalfChar(s[0])] + HalfWidth(s[1..])
  }

  /** full2half: the loop that builds the result one character at a time. */
  method Full2Half(s: string) returns (r: string)
    ensures |r| == |s|
    ensures forall i :: 0 <= i < |s| && s[i] == '\U{3000}' ==> r[i] == ' '
    ensures forall i :: 0 <= i < |s| && IsFullWidthAscii(s[i]) ==> r[i] as int == s[i] as int - 0xFEE0
    ensures forall i :: 0 <= i < |s| && s[i] != '\U{3000}' && !IsFullWidthAscii(s[i]) ==> r[i] == s[i]
    ensures r == HalfWidth(s)
  {
    r := "";
    var i := 0;
    while i < |s|
      invariant 0 <= i <= |s|
      invariant |r| == i
      invariant forall k :: 0 <= k < i ==> r[k] == HalfChar(s[k])
    {
      var num := s[i] as int;
      if num == 0x3000 {
        num := 32;
      } else if 0xFF01 <= num <= 0xFF5E {
        num := num - 0xFEE0;
      }
      r := r + [num as char];
      i := i + 1;
    }
  }

  /** The output of full2half holds no character full2half would change. */
  lemma {:induction false} HalfWidthIsHalfWidth(s: string)
    ensures IsHalfWidth(HalfWidth(s))
  {
    forall i | 0 <= i < |s| ensures HalfWidth(s)[i] != '\U{3000}' && !IsFullWidthAscii(HalfWidth(s)[i]) {
      var c := s[i];
      if IsFullWidthAscii(c) {
        assert HalfChar(c) as int < 0x7F;
      }
    }
  }

  /** A half-width string is a fixed point of full2half. */
  lemma {:induction false} HalfWidthFixed(s: string)
    requires IsHalfWidth(s)
    ensures HalfWidth(s) == s
  {
    if s != [] {
      assert IsHalfWidth(s[1..]) by {
        forall i | 0 <= i < |s[1..]| ensures s[1..][i] != '\U{3000}' && !IsFullWidthAscii(s[1..][i]) {
          assert s[1..][i] == s[i + 1];
        }
      }
      HalfWidthFixed(s[1..]);
      assert s == [s[0]] + s[1..];
    }
  }

  /** full2half is idempotent. */
  lemma HalfWidthIdempotent(s: string)
    ensures HalfWidth(HalfWidth(s)) == HalfWidth(s)
  {
    HalfWidthIsHalfWidth(s);
    HalfWidthFixed(HalfWidth(s));
  }

  // ---------------------------------------------------------------------
  // Emoji
  // ---------------------------------------------------------------------

  /** An inclusive range of code points, one member of a regex character class. */
  datatype CodeRange = CodeRange(lo: int, hi: int)

  /** The character class of EMOJI_PATTERN. */
  const EmojiRanges: seq<CodeRange> := [
    CodeRange(0x1F600, 0x1F64F),  // emoticons
    CodeRange(0x1F300, 0x1F5FF),  // symbols and pictographs
    CodeRange(0x1F680, 0x1F6FF),  // transport and map symbols
    CodeRange(0x1F1E0, 0x1F1FF)   // regional indicators (flags)
  ]

  predicate InRanges(c: char, ranges: seq<CodeRange>) {
    exists k :: 0 <= k < |ranges| && ranges[k].lo <= c as int <= ranges[k].hi
  }

  /** A character of the default emoji pattern. */
  predicate IsEmoji(c: char) {
    || 0x1F600 <= c as int <= 0x1F64F
    || 0x1F300 <= c as int <= 0x1F5FF
    || 0x1F680 <= c as int <= 0x1F6FF
    || 0x1F1E0 <= c as int <= 0x1F1FF
  }

  lemma DefaultEmojiRanges(c: char)
    ensures InRanges(c, EmojiRanges) <==> IsEmoji(c)
  {
    if IsEmoji(c) {
      if 0x1F600 <= c as int <= 0x1F64F { assert EmojiRanges[0].lo <= c as int <= EmojiRanges[0].hi; }
      else if 0x1F300 <= c as int <= 0x1F5FF { assert EmojiRanges[1].lo <= c as int <= EmojiRanges[1].hi; }
      else if 0x1F680 <= c as int <= 0x1F6FF { assert EmojiRanges[2].lo <= c as int <= EmojiRanges[2].hi; }
      else { assert EmojiRanges[3].lo <= c as int <= EmojiRanges[3].hi; }
    }
  }

  // ---------------------------------------------------------------------
  // str.replace and str.split()
  // ---------------------------------------------------------------------

  predicate StartsWith(s: string, prefix: string) {
    |prefix| <= |s| && s[..|prefix|] == prefix
  }

  /** Python's `sub in s`: `sub` occurs as a contiguous substring of `s`. */
  predicate Occurs(sub: string, s: string)
    decreases |s|
  {
    StartsWith(s, sub) || (s != [] && Occurs(sub, s[1..]))
  }

  /** A one-character substring occurs exactly when the character does. */
  lemma {:induction false} OccursChar(c: char, s: string)
    ensures Occurs([c], s) <==> c in s
  {
    if s != [] {
      OccursChar(c, s[1..]);
      assert s == [s[0]] + s[1..];
    }
  }

  /** `s.replace('', with)` puts `with` before, between and after the characters. */
  function Interleave(s: string, with: string): string {
    if s == [] then with else with + [s[0]] + Interleave(s[1..], with)
  }

  /** Python's `s.replace(pat, with)`: non-overlapping occurrences, left to right. */
  function Replace(s: string, pat: string, with: string): string
    decreases |s|
  {
    if pat == [] then Interleave(s, with)
    else if StartsWith(s, pat) then with + Replace(s[|pat|..], pat, with)
    else if s == [] then []
    else [s[0]] + Replace(s[1..], pat, with)
  }

  /** Replacing a non-empty pattern that does not occur changes nothing. */
  lemma {:induction false} ReplaceAbsent(s: string, pat: string, with: string)
    requires pat != [] && !Occurs(pat, s)
    ensures Replace(s, pat, with) == s
  {
    if s != [] {
      ReplaceAbsent(s[1..], pat, with);
      assert s == [s[0]] + s[1..];
    }
  }

  /** Replacing a one-character pattern by a space maps the string character by character. */
  lemma {:induction false} ReplaceChar(s: string, d: char)
    ensures Replace(s, [d], " ") == seq(|s|, i requires 0 <= i < |s| => if s[i] == d then ' ' else s[i])
  {
    if s != [] {
      ReplaceChar(s[1..], d);
      assert s[..1] == [s[0]];
      assert StartsWith(s, [d]) <==> s[0] == d;
    }
  }

  /** The whitespace characters of Python's `str.split()` (`str.isspace`). */
  predicate IsSpace(c: char) {
    || '\t' <= c <= '\r' || '\U{1C}' <= c <= '\U{1F}' || c == ' '
    || c == '\U{85}' || c == '\U{A0}' || c == '\U{1680}'
    || '\U{2000}' <= c <= '\U{200A}' || c == '\U{2028}' || c == '\U{2029}'
    || c == '\U{202F}' || c == '\U{205F}' || c == '\U{3000}'
  }

  predicate NotSpace(c: char) { !IsSpace(c) }

  predicate NoSpace(s: string) { forall i :: 0 <= i < |s| ==> !IsSpace(s[i]) }

  /** `str.split()` continuing a word `cur` that has been read so far. */
  function SplitFrom(s: string, cur: string): seq<string>
    decreases |s|
  {
    if s == [] then (if cur == [] then [] else [cur])
    else if IsSpace(s[0]) then (if cur == [] then [] else [cur]) + SplitFrom(s[1..], [])
    else SplitFrom(s[1..], cur + [s[0]])
  }

  /** Python's `s.split()` with no separator. */
  function Split(s: string): seq<string> {
    SplitFrom(s, [])
  }

  /** Every word of `str.split()` is non-empty and free of whitespace. */
  lemma {:induction false} SplitFromWords(s: string, cur: string)
    requires NoSpace(cur)
    ensures forall k :: 0 <= k < |SplitFrom(s, cur)| ==> SplitFrom(s, cur)[k] != [] && NoSpace(SplitFrom(s, cur)[k])
  {
    if s != [] {
      if IsSpace(s[0]) {
        SplitFromWords(s[1..], []);
      } else {
        SplitFromWords(s[1..], cur + [s[0]]);
      }
    }
  }

  lemma SplitWords(s: string)
    ensures forall k :: 0 <= k < |Split(s)| ==> Split(s)[k] != [] && NoSpace(Split(s)[k])
  {
    SplitFromWords(s, []);
  }

  /** The words of `str.split()`, put together again, are the non-space characters. */
  lemma {:induction false} SplitFromText(s: string, cur: string)
    ensures Flatten(SplitFrom(s, cur)) == cur + Filter(s, NotSpace)
  {
    if s == [] {
      if cur != [] {
        assert Flatten([cur]) == cur + Flatten([cur][1..]);
      }
    } else if IsSpace(s[0]) {
      SplitFromText(s[1..], []);
      var head := if cur == [] then [] else [cur];
      FlattenAppend(head, SplitFrom(s[1..], []));
      if cur != [] {
        assert Flatten([cur]) == cur + Flatten([cur][1..]);
      }
    } else {
      SplitFromText(s[1..], cur + [s[0]]);
    }
  }

  /** A non-empty word without whitespace splits into itself. */
  lemma {:induction false} SplitWord(s: string, cur: string)
    requires NoSpace(s) && (cur != [] || s != [])
    ensures SplitFrom(s, cur) == [cur + s]
  {
    if s != [] {
      assert NoSpace(s[1..]) by {
        forall i | 0 <= i < |s[1..]| ensures !IsSpace(s[1..][i]) { assert s[1..][i] == s[i + 1]; }
      }
      SplitWord(s[1..], cur + [s[0]]);
      assert cur + [s[0]] + s[1..] == cur + s;
    } else {
      assert cur + s == cur;
    }
  }

  // ---------------------------------------------------------------------
  // The Preprocessor object
  // ---------------------------------------------------------------------

  /** Python's `list(map(str, range(10))) + ['$', '%']`. */
  const FilterWords: seq<string> := ["0", "1", "2", "3", "4", "5", "6", "7", "8", "9", "$", "%"]

  /** The characters that the default filter words stand for. */
  predicate IsFilterChar(c: char) {
    '0' <= c <= '9' || c == '$' || c == '%'
  }

  /** A token list (`list[str]`) or a batch of token lists (`list[list[str]]`). */
  datatype Doc = Flat(tokens: seq<string>) | Batch(docs: seq<seq<string>>) {
    predicate IsEmpty() {
      match this
      case Flat(ts) => ts == []
      case Batch(ds) => ds == []
    }
  }

  /**
   * The three settings fixed by `Preprocessor.__init__`: the delimiters, the
   * emoji character class and the words to filter.
   */
  datatype Config = Config(delimiters: seq<string>, emojiRanges: seq<CodeRange>, filterWords: seq<string>) {

    /** `remove_emoji` keeps the characters outside the emoji class. */
    function KeepChar(): char -> bool {
      c => !InRanges(c, emojiRanges)
    }

    /** remove_emoji. */
    function RemoveEmoji(s: string): string {
      Filter(s, KeepChar())
    }

    /** deli: a left fold of `replace(delimiter, ' ')` over the delimiters. */
    function Deli(s: string): string {
      ReplaceEach(s, delimiters)
    }

    /** The sub-tokens one input token contributes in further_split. */
    function Pieces(token: string): seq<string> {
      Split(Deli(RemoveEmoji(HalfWidth(token))))
    }

    /** further_split: a left fold that appends the pieces of each token. */
    function FurtherSplit(doc: seq<string>): seq<string>
      decreases |doc|
    {
      if doc == [] then [] else FurtherSplit(doc[..|doc| - 1]) + Pieces(doc[|doc| - 1])
    }

    /** no_filter_word: non-empty and containing none of the filter words. */
    predicate NoFilterWord(s: string) {
      s != [] && forall k :: 0 <= k < |filterWords| ==> !Occurs(filterWords[k], s)
    }

    function Keep(): string -> bool {
      s => NoFilterWord(s)
    }

    /** single_process. */
    function SingleProcess(doc: seq<string>): seq<string> {
      Filter(FurtherSplit(doc), Keep())
    }

    /** preprocess, for a single token list and for a batch of them. */
    function Preprocess(doc: Doc): (r: Doc)
      ensures doc.IsEmpty() ==> r == doc
      ensures doc.Flat? && !doc.IsEmpty() ==> r == Flat(SingleProcess(doc.tokens))
      ensures doc.Batch? ==> r.Batch? && |r.docs| == |doc.docs|
      ensures doc.Batch? ==> forall i :: 0 <= i < |doc.docs| ==> r.docs[i] == SingleProcess(doc.docs[i])
    {
      if doc.IsEmpty() then doc
      else match doc
        case Flat(ts) => Flat(SingleProcess(ts))
        case Batch(ds) => Batch(seq(|ds|, i requires 0 <= i < |ds| => SingleProcess(ds[i])))
    }
  }

  /** The left fold `reduce(lambda x, y: x.replace(y, ' '), ds, s)`. */
  function ReplaceEach(s: string, ds: seq<string>): string
    decreases |ds|
  {
    if ds == [] then s else ReplaceEach(Replace(s, ds[0], " "), ds[1..])
  }

  /** Every delimiter is a single character. */
  predicate SingleChars(ds: seq<string>) {
    forall k :: 0 <= k < |ds| ==> |ds[k]| == 1
  }

  /** `c` is one of the delimiters. */
  predicate IsDelimiter(c: char, ds: seq<string>) {
    exists k :: 0 <= k < |ds| && ds[k] == [c]
  }

  /**
   * The fold over one-character delimiters turns every delimiter character
   * into a space and keeps every other character in place.
   */
  lemma {:induction false} ReplaceEachChars(s: string, ds: seq<string>)
    requires SingleChars(ds)
    ensures |ReplaceEach(s, ds)| == |s|
    ensures forall i :: 0 <= i < |s| ==> ReplaceEach(s, ds)[i] == if IsDelimiter(s[i], ds) then ' ' else s[i]
    decreases |ds|
  {
    if ds != [] {
      var d := ds[0][0];
      assert ds[0] == [d];
      ReplaceChar(s, d);
      var t := Replace(s, ds[0], " ");
      assert SingleChars(ds[1..]) by {
        forall k | 0 <= k < |ds[1..]| ensures |ds[1..][k]| == 1 {
          assert ds[1..][k] == ds[k + 1];
        }
      }
      ReplaceEachChars(t, ds[1..]);
      forall i | 0 <= i < |s| ensures ReplaceEach(s, ds)[i] == if IsDelimiter(s[i], ds) then ' ' else s[i] {
        if s[i] != d {
          if IsDelimiter(s[i], ds) {
            var k :| 0 <= k < |ds| && ds[k] == [s[i]];
            assert ds[1..][k - 1] == [s[i]];
          }
          if IsDelimiter(s[i], ds[1..]) {
            var k :| 0 <= k < |ds[1..]| && ds[1..][k] == [s[i]];
            assert ds[k + 1] == [s[i]];
          }
        }
      }
    }
  }

  /** `Preprocessor()` with its default emoji pattern and filter words. */
  function DefaultConfig(delimiters: seq<string>): Config {
    Config(delimiters, EmojiRanges, FilterWords)
  }

  // ---------------------------------------------------------------------
  // Properties
  // ---------------------------------------------------------------------

  /** remove_emoji deletes a character exactly when it is in the emoji class: it maps
      concatenation to concatenation and each single character to itself or nothing. */
  lemma RemoveEmojiExact(cfg: Config, a: string, b: string, c: char)
    ensures cfg.RemoveEmoji(a + b) == cfg.RemoveEmoji(a) + cfg.RemoveEmoji(b)
    ensures cfg.RemoveEmoji([c]) == if InRanges(c, cfg.emojiRanges) then [] else [c]
  {
    FilterAppend(a, b, cfg.KeepChar());
    assert [c][1..] == [];
  }

  /** With the default pattern, no emoji survives and every other character is kept. */
  lemma RemoveEmojiDefault(delimiters: seq<string>, s: string, c: char)
    ensures c in DefaultConfig(delimiters).RemoveEmoji(s) <==> c in s && !IsEmoji(c)
  {
    var cfg := DefaultConfig(delimiters);
    DefaultEmojiRanges(c);
    if c in s && !IsEmoji(c) {
      FilterKeeps(s, cfg.KeepChar(), c);
    }
  }

  /** further_split of a concatenation is the concatenation of the further_splits. */
  lemma {:induction false} FurtherSplitAppend(cfg: Config, a: seq<string>, b: seq<string>)
    ensures cfg.FurtherSplit(a + b) == cfg.FurtherSplit(a) + cfg.FurtherSplit(b)
    decreases |b|
  {
    if b == [] {
      assert a + b == a;
    } else {
      var n := |b| - 1;
      assert (a + b)[..|a + b| - 1] == a + b[..n];
      assert (a + b)[|a + b| - 1] == b[n];
      FurtherSplitAppend(cfg, a, b[..n]);
    }
  }

  /** further_split puts the pieces of the tokens one after the other, in token order. */
  lemma {:induction false} FurtherSplitPieces(cfg: Config, doc: seq<string>)
    ensures cfg.FurtherSplit(doc) == Flatten(seq(|doc|, i requires 0 <= i < |doc| => cfg.Pieces(doc[i])))
  {
    if doc != [] {
      FurtherSplitAppend(cfg, [doc[0]], doc[1..]);
      assert [doc[0]] + doc[1..] == doc;
      assert cfg.FurtherSplit([doc[0]]) == cfg.FurtherSplit([]) + cfg.Pieces(doc[0]);
      FurtherSplitPieces(cfg, doc[1..]);
      var ps := seq(|doc|, i requires 0 <= i < |doc| => cfg.Pieces(doc[i]));
      assert ps[1..] == seq(|doc[1..]|, i requires 0 <= i < |doc[1..]| => cfg.Pieces(doc[1..][i]));
    }
  }

  /** Every sub-token of further_split is non-empty and free of whitespace. */
  lemma {:induction false} FurtherSplitWords(cfg: Config, doc: seq<string>)
    ensures forall k :: 0 <= k < |cfg.FurtherSplit(doc)| ==>
      cfg.FurtherSplit(doc)[k] != [] && NoSpace(cfg.FurtherSplit(doc)[k])
    decreases |doc|
  {
    if doc != [] {
      var init := doc[..|doc| - 1];
      FurtherSplitWords(cfg, init);
      SplitWords(cfg.Deli(cfg.RemoveEmoji(HalfWidth(doc[|doc| - 1]))));
      var a, b := cfg.FurtherSplit(init), cfg.Pieces(doc[|doc| - 1]);
      assert forall k :: 0 <= k < |a + b| ==> (a + b)[k] == if k < |a| then a[k] else b[k - |a|];
    }
  }

  /** deli with one-character delimiters: each delimiter becomes a space, every other character stays. */
  lemma DeliChars(cfg: Config, s: string)
    requires SingleChars(cfg.delimiters)
    ensures |cfg.Deli(s)| == |s|
    ensures forall i :: 0 <= i < |s| ==> cfg.Deli(s)[i] == if IsDelimiter(s[i], cfg.delimiters) then ' ' else s[i]
  {
    ReplaceEachChars(s, cfg.delimiters);
  }

  /** With one-character delimiters, no sub-token of a token holds a delimiter. */
  lemma PiecesFreeOfDelimiters(cfg: Config, token: string, piece: string, c: char)
    requires SingleChars(cfg.delimiters)
    requires piece in cfg.Pieces(token) && c in piece
    ensures !IsDelimiter(c, cfg.delimiters)
  {
    var y := cfg.RemoveEmoji(HalfWidth(token));
    var x := cfg.Deli(y);
    var k :| 0 <= k < |Split(x)| && Split(x)[k] == piece;
    FlattenMember(Split(x), k, c);
    SplitFromText(x, []);
    assert c in x && NotSpace(c);
    DeliChars(cfg, y);
    var i :| 0 <= i < |x| && x[i] == c;
    assert c == y[i] && !IsDelimiter(y[i], cfg.delimiters);
  }

  /** With one-character delimiters, no sub-token of further_split holds a delimiter. */
  lemma FurtherSplitNoDelimiters(cfg: Config, doc: seq<string>, t: string, c: char)
    requires SingleChars(cfg.delimiters)
    requires t in cfg.FurtherSplit(doc) && c in t
    ensures !IsDelimiter(c, cfg.delimiters)
  {
    FurtherSplitPieces(cfg, doc);
    var ps := seq(|doc|, i requires 0 <= i < |doc| => cfg.Pieces(doc[i]));
    var i :| 0 <= i < |ps| && t in ps[i];
    PiecesFreeOfDelimiters(cfg, doc[i], t, c);
  }

  /** single_process keeps exactly the sub-tokens that pass no_filter_word, in order. */
  lemma SingleProcessExact(cfg: Config, a: seq<string>, b: seq<string>, t: string)
    ensures cfg.SingleProcess(a + b) == cfg.SingleProcess(a) + cfg.SingleProcess(b)
    ensures t in cfg.SingleProcess(a) <==> t in cfg.FurtherSplit(a) && cfg.NoFilterWord(t)
  {
    FurtherSplitAppend(cfg, a, b);
    FilterAppend(cfg.FurtherSplit(a), cfg.FurtherSplit(b), cfg.Keep());
    if t in cfg.FurtherSplit(a) && cfg.NoFilterWord(t) {
      FilterKeeps(cfg.FurtherSplit(a), cfg.Keep(), t);
    }
  }

  /** With the default filter words, no_filter_word means non-empty and free of
      digits, `$` and `%`. */
  lemma DefaultNoFilterWord(delimiters: seq<string>, s: string)
    ensures DefaultConfig(delimiters).NoFilterWord(s) <==>
      s != [] && forall i :: 0 <= i < |s| ==> !IsFilterChar(s[i])
  {
    var cfg := DefaultConfig(delimiters);
    forall k | 0 <= k < |FilterWords| ensures |FilterWords[k]| == 1 && (Occurs(FilterWords[k], s) <==> FilterWords[k][0] in s) {
      OccursChar(FilterWords[k][0], s);
      assert FilterWords[k] == [FilterWords[k][0]];
    }
    if exists i :: 0 <= i < |s| && IsFilterChar(s[i]) {
      var i :| 0 <= i < |s| && IsFilterChar(s[i]);
      var c := s[i];
      var k: nat := if c == '$' then 10 else if c == '%' then 11 else c as int - '0' as int;
      assert FilterWords[k][0] == c;
    }
  }

  /** Every token that single_process returns is non-empty, free of whitespace and,
      with the default filter words, free of digits, `$` and `%`. */
  lemma SingleProcessTokens(delimiters: seq<string>, doc: seq<string>)
    ensures forall t :: t in DefaultConfig(delimiters).SingleProcess(doc) ==>
      t != [] && NoSpace(t) && forall i :: 0 <= i < |t| ==> !IsFilterChar(t[i])
  {
    var cfg := DefaultConfig(delimiters);
    FurtherSplitWords(cfg, doc);
    forall t | t in cfg.SingleProcess(doc)
      ensures t != [] && NoSpace(t) && forall i :: 0 <= i < |t| ==> !IsFilterChar(t[i])
    {
      DefaultNoFilterWord(delimiters, t);
    }
  }

  /** The batched form is the single form applied to each list of the batch. */
  lemma BatchIsPointwise(cfg: Config, ds: seq<seq<string>>, i: nat)
    requires i < |ds|
    ensures cfg.Preprocess(Batch(ds)).docs[i] == cfg.Preprocess(Flat(ds[i])).tokens
  {
    if ds[i] == [] {
      assert cfg.FurtherSplit(ds[i]) == [];
    }
  }
}
