/**
 * Paths as a unified diff from Git writes them, and the two readers of them: the path
 * beside a `---` or `+++` marker, and the two paths of a `diff --git` line.
 *
 * Text is modelled as bytes. Git's own printer is written down here as `Quote` and the
 * header texts, so that each reader can be proved to undo it.
 */
module GitDiffPaths {
  import opened Wrappers

  type Byte = b: int | 0 <= b < 256
  type Bytes = seq<Byte>

  const TAB: Byte := 9
  const SPACE: Byte := 32
  const DOUBLE_QUOTE: Byte := 34
  const SLASH: Byte := 47
  const BACKSLASH: Byte := 92
  const LETTER_A: Byte := 97
  const LETTER_B: Byte := 98

  /** `a/`, the base side's prefix. */
  const OLD_PREFIX: Bytes := [LETTER_A, SLASH]
  /** `b/`, the head side's prefix. */
  const NEW_PREFIX: Bytes := [LETTER_B, SLASH]
  /** ` b/`, which an unquoted path may hold itself. */
  const SEPARATOR: Bytes := [SPACE, LETTER_B, SLASH]
  /** `diff --git ` */
  const HEADER: Bytes := [100, 105, 102, 102, 32, 45, 45, 103, 105, 116, 32]
  /** `/dev/null` */
  const DEV_NULL: Bytes := [47, 100, 101, 118, 47, 110, 117, 108, 108]

  predicate StartsWith(s: Bytes, prefix: Bytes) {
    |prefix| <= |s| && s[..|prefix|] == prefix
  }

  // ----- Reading one path -----

  predicate IsOctalDigit(b: Byte) {
    48 <= b <= 55
  }

  /** The byte that a one-letter escape names. */
  function EscapedByte(letter: Byte): Option<Byte> {
    match letter
    case 97 => Some(7)
    case 98 => Some(8)
    case 116 => Some(9)
    case 110 => Some(10)
    case 118 => Some(11)
    case 102 => Some(12)
    case 114 => Some(13)
    case 34 => Some(34)
    case 92 => Some(92)
    case _ => None
  }

  /**
   * How much of `s` the escape at its start takes: three octal digits if it can, else any one byte;
   * 0 for no escape.
   */
  function EscapeLength(s: Bytes): (n: nat)
    ensures n <= |s|
  {
    if |s| < 2 || s[0] != BACKSLASH then 0
    else if 4 <= |s| && IsOctalDigit(s[1]) && IsOctalDigit(s[2]) && IsOctalDigit(s[3]) then 4
    else 2
  }

  /** The text cut at its escapes, which are kept: literal, escape, literal, and so on to a last literal. */
  function Parts(s: Bytes): (parts: seq<Bytes>)
    ensures parts != []
    ensures parts[0] != [] && parts[0][0] == BACKSLASH ==> parts[0] == [BACKSLASH]
    decreases |s|
  {
    if s == [] then [[]]
    else
      var n := EscapeLength(s);
      if n > 0 then [[], s[..n]] + Parts(s[n..])
      else
        var rest := Parts(s[1..]);
        [[s[0]] + rest[0]] + rest[1..]
  }

  /** The bytes one part stands for; an octal escape past 377 wraps, as a byte array stores it. */
  function PartBytes(part: Bytes): Option<Bytes> {
    if part == [] || part[0] != BACKSLASH then Some(part)
    else if |part| == 4 then
      var value: int := (part[1] as int - 48) * 64 + (part[2] as int - 48) * 8 + (part[3] as int - 48);
      Some([value % 256])
    else if |part| == 2 && EscapedByte(part[1]).Some? then Some([EscapedByte(part[1]).value])
    else None
  }

  function After(first: Option<Bytes>, rest: Option<Bytes>): Option<Bytes> {
    if first.Some? && rest.Some? then Some(first.value + rest.value) else None
  }

  function Decode(parts: seq<Bytes>): Option<Bytes> {
    if parts == [] then Some([]) else After(PartBytes(parts[0]), Decode(parts[1..]))
  }

  predicate Enclosed(value: Bytes) {
    2 <= |value| && value[0] == DOUBLE_QUOTE && value[|value| - 1] == DOUBLE_QUOTE
  }

  /** What `GitPath` computes, on values. */
  function Unquoted(value: Bytes): Bytes {
    if !Enclosed(value) then value
    else
      var path := Decode(Parts(value[1..|value| - 1]));
      if path.Some? then path.value else value
  }

  /** After some bytes, the next part's come before what the later ones stand for. */
  lemma DecodesOn(bytes: Bytes, parts: seq<Bytes>, i: nat)
    requires i < |parts|
    ensures After(Some(bytes), Decode(parts[i..])) ==
            var part := PartBytes(parts[i]);
            if part.None? then None else After(Some(bytes + part.value), Decode(parts[i + 1..]))
  {
    assert parts[i..][1..] == parts[i + 1..];
    var part, rest := PartBytes(parts[i]), Decode(parts[i + 1..]);
    if part.Some? && rest.Some? {
      assert bytes + (part.value + rest.value) == bytes + part.value + rest.value;
    }
  }

  method GitPath(value: Bytes) returns (path: Bytes)
    ensures path == Unquoted(value)
    ensures ReadsAs(value, path)
  {
    UnquotedIff(value, Unquoted(value));
    if !Enclosed(value) {
      return value;
    }
    var parts := Parts(value[1..|value| - 1]);
    var bytes: Bytes := [];
    assert parts[0..] == parts && forall b: Bytes :: [] + b == b;
    for i := 0 to |parts|
      invariant Decode(parts) == After(Some(bytes), Decode(parts[i..]))
    {
      DecodesOn(bytes, parts, i);
      var part := PartBytes(parts[i]);
      if part.None? {
        return value;
      }
      bytes := bytes + part.value;
    }
    return bytes;
  }

  function Untabbed(value: Bytes): Bytes {
    if value != [] && value[|value| - 1] == TAB then value[..|value| - 1] else value
  }

  function DiffSidePath(value: Bytes, prefix: Bytes): Option<Bytes> {
    var path := Unquoted(Untabbed(value));
    if path == DEV_NULL then None
    else Some(if StartsWith(path, prefix) then path[|prefix|..] else path)
  }

  // ----- Reading a header -----

  datatype Names = Names(oldPath: Bytes, newPath: Bytes)

  /** `t` is the rest of a quoted path whose opening quote came before it: it ends at its first unescaped quote. */
  predicate ClosesQuote(t: Bytes)
    decreases |t|
  {
    if t == [] then false
    else if t[0] == DOUBLE_QUOTE then |t| == 1
    else if t[0] == BACKSLASH then 2 <= |t| && ClosesQuote(t[2..])
    else ClosesQuote(t[1..])
  }

  predicate IsQuoted(s: Bytes) {
    s != [] && s[0] == DOUBLE_QUOTE && ClosesQuote(s[1..])
  }

  /** Two equal halves, `a/` and `b/` apart: a file that kept its name. */
  predicate SameHalves(rest: Bytes) {
    |rest| % 2 == 1 && 5 <= |rest| &&
    var half := (|rest| - 1) / 2;
    rest[half] == SPACE &&
    StartsWith(rest, OLD_PREFIX) &&
    rest[half + 1..half + 3] == NEW_PREFIX &&
    rest[2..half] == rest[half + 3..]
  }

  /** The space at `k` can part the two paths. */
  predicate IsSplit(rest: Bytes, k: nat) {
    k < |rest| && rest[k] == SPACE &&
    (IsQuoted(rest[..k]) || StartsWith(rest[..k], OLD_PREFIX)) &&
    (IsQuoted(rest[k + 1..]) || StartsWith(rest[k + 1..], NEW_PREFIX))
  }

  /** The first space from `k` on that parts the two paths, as the lazy match finds it. */
  function FirstSplit(rest: Bytes, k: nat): (split: Option<nat>)
    ensures split.Some? ==> k <= split.value && IsSplit(rest, split.value)
    ensures forall j :: k <= j && (split.Some? ==> j < split.value) ==> !IsSplit(rest, j)
    decreases |rest| - k
  {
    if |rest| <= k then None
    else if IsSplit(rest, k) then Some(k)
    else FirstSplit(rest, k + 1)
  }

  function DiffHeaderPaths(line: Bytes): Option<Names> {
    if !StartsWith(line, HEADER) then None
    else
      var rest := line[|HEADER|..];
      if SameHalves(rest) then
        var kept := rest[2..(|rest| - 1) / 2];
        Some(Names(kept, kept))
      else
        var split := FirstSplit(rest, 0);
        if split.None? then None
        else
          var oldPath, newPath := Unquoted(rest[..split.value]), Unquoted(rest[split.value + 1..]);
          if StartsWith(oldPath, OLD_PREFIX) && StartsWith(newPath, NEW_PREFIX) then
            Some(Names(oldPath[2..], newPath[2..]))
          else None
  }

  // ----- Git's printer -----

  /** How Git may spell one byte inside quotes. */
  datatype Form = Literal | Named | Octal

  function EscapeLetter(b: Byte): Option<Byte> {
    match b
    case 7 => Some(97)
    case 8 => Some(98)
    case 9 => Some(116)
    case 10 => Some(110)
    case 11 => Some(118)
    case 12 => Some(102)
    case 13 => Some(114)
    case 34 => Some(34)
    case 92 => Some(92)
    case _ => None
  }

  predicate Permits(b: Byte, form: Form) {
    match form
    case Literal => b != DOUBLE_QUOTE && b != BACKSLASH
    case Named => EscapeLetter(b).Some?
    case Octal => true
  }

  predicate Spells(path: Bytes, forms: seq<Form>) {
    |path| == |forms| && forall i :: 0 <= i < |path| ==> Permits(path[i], forms[i])
  }

  function Spell(b: Byte, form: Form): Bytes
    requires Permits(b, form)
  {
    match form
    case Literal => [b]
    case Named => [BACKSLASH, EscapeLetter(b).value]
    case Octal => [BACKSLASH, 48 + b / 64, 48 + b / 8 % 8, 48 + b % 8]
  }

  function Spelled(path: Bytes, forms: seq<Form>): Bytes
    requires Spells(path, forms)
  {
    if path == [] then [] else Spell(path[0], forms[0]) + Spelled(path[1..], forms[1..])
  }

  /** A quoted path, each byte in the form chosen for it. */
  function Quote(path: Bytes, forms: seq<Form>): Bytes
    requires Spells(path, forms)
  {
    [DOUBLE_QUOTE] + Spelled(path, forms) + [DOUBLE_QUOTE]
  }

  function HeaderLine(oldText: Bytes, newText: Bytes): Bytes {
    HEADER + (oldText + [SPACE] + newText)
  }

  predicate SeparatorAt(path: Bytes, i: int) {
    0 <= i <= |path| - 3 && path[i] == SPACE && path[i + 1] == LETTER_B && path[i + 2] == SLASH
  }

  ghost predicate HoldsSeparator(path: Bytes) {
    exists i :: SeparatorAt(path, i)
  }

  /** `path` reads as `x b/old b/x`: beside an unquoted `old`, its header is two equal halves. */
  predicate Mirrors(old_: Bytes, path: Bytes) {
    var n := (|path| - 6 - |old_|) / 2;
    0 <= n && path == path[..n] + SEPARATOR + old_ + SEPARATOR + path[..n]
  }

  // ----- The readers undo the printer -----

  lemma DecodeCons(part: Bytes, parts: seq<Bytes>)
    ensures Decode([part] + parts) == After(PartBytes(part), Decode(parts))
  {
    assert ([part] + parts)[1..] == parts;
  }

  lemma LiteralParts(b: Byte, rest: Bytes)
    requires b != BACKSLASH
    ensures Parts([b] + rest) == [[b] + Parts(rest)[0]] + Parts(rest)[1..]
  {
    assert ([b] + rest)[1..] == rest;
  }

  lemma LiteralPart(b: Byte, part: Bytes)
    requires b != BACKSLASH && PartBytes(part).Some? && (part != [] && part[0] == BACKSLASH ==> |part| == 1)
    ensures PartBytes([b] + part) == Some([b] + part) && PartBytes(part) == Some(part)
  {
  }

  lemma {:induction false} LiteralFirst(b: Byte, parts: seq<Bytes>)
    requires b != BACKSLASH && parts != [] && Decode(parts).Some?
    requires parts[0] != [] && parts[0][0] == BACKSLASH ==> |parts[0]| == 1
    ensures Decode([[b] + parts[0]] + parts[1..]) == Some([b] + Decode(parts).value)
  {
    LiteralPart(b, parts[0]);
    DecodeCons([b] + parts[0], parts[1..]);
    assert [b] + parts[0] + Decode(parts[1..]).value == [b] + (parts[0] + Decode(parts[1..]).value);
  }

  lemma LiteralDecodes(b: Byte, rest: Bytes)
    requires b != BACKSLASH && Decode(Parts(rest)).Some?
    ensures Decode(Parts([b] + rest)) == Some([b] + Decode(Parts(rest)).value)
  {
    LiteralParts(b, rest);
    LiteralFirst(b, Parts(rest));
  }

  lemma EscapeDecodes(here: Bytes, rest: Bytes)
    requires EscapeLength(here) == |here| == 4 || (EscapeLength(here) == |here| == 2 && !IsOctalDigit(here[1]))
    requires PartBytes(here).Some? && Decode(Parts(rest)).Some?
    ensures Decode(Parts(here + rest)) == Some(PartBytes(here).value + Decode(Parts(rest)).value)
  {
    var text := here + rest;
    assert text[..|here|] == here && text[|here|..] == rest;
    assert EscapeLength(text) == |here|;
    assert Parts(text) == [[]] + ([here] + Parts(rest));
    DecodeCons([], [here] + Parts(rest));
    DecodeCons(here, Parts(rest));
    var bytes := PartBytes(here).value + Decode(Parts(rest)).value;
    assert [] + bytes == bytes;
  }

  lemma SpellEscapes(b: Byte, form: Form)
    requires Permits(b, form) && form != Literal
    ensures var here := Spell(b, form);
            (EscapeLength(here) == |here| == 4 || (EscapeLength(here) == |here| == 2 && !IsOctalDigit(here[1]))) &&
            PartBytes(here) == Some([b])
  {
    if form == Octal {
      assert b / 64 * 64 + b / 8 % 8 * 8 + b % 8 == b;
    }
  }

  lemma {:induction false} SpelledDecodes(path: Bytes, forms: seq<Form>)
    requires Spells(path, forms)
    ensures Decode(Parts(Spelled(path, forms))) == Some(path)
    decreases |path|
  {
    if path == [] {
      var none: Bytes, noParts: seq<Bytes> := [], [];
      DecodeCons(none, noParts);
      assert Spelled(path, forms) == none && Parts(none) == [none] + noParts;
      assert PartBytes(none) == Some(none) && Decode(noParts) == Some(none) && none + none == path;
    } else {
      var here, rest := Spell(path[0], forms[0]), Spelled(path[1..], forms[1..]);
      SpelledDecodes(path[1..], forms[1..]);
      assert path == [path[0]] + path[1..];
      if forms[0] == Literal {
        LiteralDecodes(path[0], rest);
      } else {
        SpellEscapes(path[0], forms[0]);
        EscapeDecodes(here, rest);
      }
    }
  }

  /** Whatever quoting Git chose, the path read back is the path it wrote. */
  lemma QuotedPathRoundTrip(path: Bytes, forms: seq<Form>)
    requires Spells(path, forms)
    ensures Unquoted(Quote(path, forms)) == path
  {
    var value := Quote(path, forms);
    assert value[1..|value| - 1] == Spelled(path, forms);
    SpelledDecodes(path, forms);
  }

  lemma UntabbedIs(text: Bytes, tabbed: bool)
    requires text == [] || text[|text| - 1] != TAB
    ensures Untabbed(if tabbed then text + [TAB] else text) == text
  {
  }

  lemma QuoteEnds(path: Bytes, forms: seq<Form>)
    requires Spells(path, forms)
    ensures var text := Quote(path, forms); text != [] && text[|text| - 1] == DOUBLE_QUOTE
  {
  }

  /** A side's path is recovered from either spelling, with the tab Git ends a spaced path with or without it. */
  lemma SidePathRoundTrip(path: Bytes, prefix: Bytes, forms: Option<seq<Form>>, tabbed: bool)
    requires prefix == OLD_PREFIX || prefix == NEW_PREFIX
    requires forms.Some? ==> Spells(prefix + path, forms.value)
    requires forms.None? ==> path == [] || path[|path| - 1] != TAB
    ensures var text := if forms.Some? then Quote(prefix + path, forms.value) else prefix + path;
            DiffSidePath(if tabbed then text + [TAB] else text, prefix) == Some(path)
  {
    var text := if forms.Some? then Quote(prefix + path, forms.value) else prefix + path;
    if forms.Some? {
      QuotedPathRoundTrip(prefix + path, forms.value);
      QuoteEnds(prefix + path, forms.value);
    }
    UntabbedIs(text, tabbed);
    assert (prefix + path)[0] != DEV_NULL[0];
    assert (prefix + path)[2..] == path;
  }

  // ----- Exactly what is read -----

  /** A byte of a path as a quoted text gives it: itself, its letter's escape, or three octal digits, which wrap. */
  predicate Piece(piece: Bytes, b: Byte) {
    || (piece == [b] && b != BACKSLASH)
    || (|piece| == 2 && piece[0] == BACKSLASH && EscapeLetter(b) == Some(piece[1]))
    || (|piece| == 4 && piece[0] == BACKSLASH && OctalValue(piece[1..]) == Some(b))
  }

  /** What three octal digits stand for as a byte. */
  function OctalValue(digits: Bytes): Option<Byte> {
    if |digits| == 3 && IsOctalDigit(digits[0]) && IsOctalDigit(digits[1]) && IsOctalDigit(digits[2]) then
      var value: int := (digits[0] as int - 48) * 64 + (digits[1] as int - 48) * 8 + (digits[2] as int - 48);
      Some(value % 256)
    else None
  }

  /**
   * The text gives the path's bytes one after another; a lone backslash at its end stands for itself
   * after a literal byte.
   */
  ghost predicate Gives(text: Bytes, path: Bytes)
    decreases |path|
  {
    if path == [] then text == []
    else
      || LoneBackslash(text, path)
      || exists n :: 1 <= n <= |text| && Piece(text[..n], path[0]) && Gives(text[n..], path[1..])
  }

  predicate LoneBackslash(text: Bytes, path: Bytes) {
    text == path && |path| == 2 && path[1] == BACKSLASH && path[0] != BACKSLASH
  }

  lemma LetterIff(b: Byte, letter: Byte)
    ensures EscapeLetter(b) == Some(letter) <==> EscapedByte(letter) == Some(b)
  {
  }

  /** The escape a text begins with is the one piece it can begin with, if it is one. */
  lemma EscapePiece(text: Bytes, n: nat, b: Byte)
    requires 1 <= n <= |text| && EscapeLength(text) > 0
    ensures Piece(text[..n], b) <==> n == EscapeLength(text) && PartBytes(text[..n]) == Some([b])
  {
    LetterIff(b, text[1]);
    var piece := text[..n];
    assert piece[0] == BACKSLASH;
    if n == 4 { assert piece[1..] == [text[1], text[2], text[3]]; }
  }

  lemma LiteralPiece(text: Bytes, n: nat, b: Byte)
    requires 1 <= n <= |text| && text[0] != BACKSLASH
    ensures Piece(text[..n], b) <==> n == 1 && text[0] == b
  {
    assert text[..n][0] == text[0];
    assert n == 1 ==> text[..n] == [text[0]];
  }

  lemma {:induction false} LoneFirst(text: Bytes)
    requires Parts(text)[0] == [BACKSLASH]
    ensures text == [BACKSLASH]
  {
    assert text != [] && EscapeLength(text) == 0;
    assert Parts(text)[0] == [text[0]] + Parts(text[1..])[0];
    assert text[0] == ([text[0]] + Parts(text[1..])[0])[0];
  }

  lemma {:induction false} EscapeStarts(text: Bytes)
    requires EscapeLength(text) > 0
    ensures var n := EscapeLength(text);
            Decode(Parts(text)) == After(PartBytes(text[..n]), Decode(Parts(text[n..])))
  {
    var n, none: Bytes := EscapeLength(text), [];
    var rest := Parts(text[n..]);
    assert Parts(text) == [none] + ([text[..n]] + rest);
    DecodeCons(none, [text[..n]] + rest);
    DecodeCons(text[..n], rest);
    var later := Decode([text[..n]] + rest);
    if later.Some? { assert none + later.value == later.value; }
  }

  lemma {:induction false} LiteralStarts(text: Bytes)
    requires text != [] && text[0] != BACKSLASH && text[1..] != [BACKSLASH]
    ensures Decode(Parts(text)) == After(Some([text[0]]), Decode(Parts(text[1..])))
  {
    var b, rest := text[0], text[1..];
    var first, parts := Parts(rest)[0], Parts(rest)[1..];
    if first == [BACKSLASH] { LoneFirst(rest); }
    assert Parts(text) == [[b] + first] + parts;
    assert Parts(rest) == [first] + parts;
    DecodeCons([b] + first, parts);
    DecodeCons(first, parts);
    if Decode(parts).Some? {
      assert [b] + first + Decode(parts).value == [b] + (first + Decode(parts).value);
    }
  }

  lemma {:induction false} LoneEnds(b: Byte)
    requires b != BACKSLASH
    ensures Decode(Parts([b, BACKSLASH])) == Some([b, BACKSLASH]) && Decode(Parts([BACKSLASH])).None?
  {
    var none: seq<Bytes>, nothing: Bytes := [], [];
    assert [b, BACKSLASH][1..] == [BACKSLASH] && [BACKSLASH][1..] == nothing;
    assert Parts(nothing) == [nothing] + none;
    assert Parts([BACKSLASH]) == [[BACKSLASH]] + none by { assert [BACKSLASH] + nothing == [BACKSLASH]; }
    assert Parts([b, BACKSLASH]) == [[b, BACKSLASH]] + none by { assert [b] + [BACKSLASH] == [b, BACKSLASH]; }
    DecodeCons([BACKSLASH], none);
    DecodeCons([b, BACKSLASH], none);
    assert [b, BACKSLASH] + nothing == [b, BACKSLASH];
  }

  /** A quoted text is decoded to a path if and only if it gives the path piece by piece. */
  lemma {:induction false} DecodesIff(text: Bytes, path: Bytes)
    ensures Decode(Parts(text)) == Some(path) <==> Gives(text, path)
    decreases |text|
  {
    if text == [] {
      var none: seq<Bytes> := [];
      assert Parts(text) == [text] + none;
      DecodeCons(text, none);
      assert Decode(Parts(text)) == Some(text + text) && text + text == text;
    } else if EscapeLength(text) > 0 {
      EscapeDecodesIff(text, path);
    } else if text == [BACKSLASH] {
      LoneEnds(SPACE);
      forall n | 1 <= n <= |text| ensures path != [] ==> !Piece(text[..n], path[0]) { assert text[..n] == text; }
    } else if text[1..] == [BACKSLASH] {
      assert text == [text[0], BACKSLASH];
      LoneEnds(text[0]);
      LoneDecodesIff(text, path);
    } else {
      LiteralDecodesIff(text, path);
    }
  }

  lemma {:induction false} EscapeDecodesIff(text: Bytes, path: Bytes)
    requires EscapeLength(text) > 0
    ensures Decode(Parts(text)) == Some(path) <==> Gives(text, path)
    decreases |text|, 0
  {
    var n := EscapeLength(text);
    EscapeStarts(text);
    EscapeByte(text);
    if path != [] {
      DecodesIff(text[n..], path[1..]);
      forall m | 1 <= m <= |text|
        ensures Piece(text[..m], path[0]) <==> m == n && PartBytes(text[..m]) == Some([path[0]])
      {
        EscapePiece(text, m, path[0]);
      }
      assert path == [path[0]] + path[1..];
    }
  }

  lemma EscapeByte(text: Bytes)
    requires EscapeLength(text) > 0
    ensures var bytes := PartBytes(text[..EscapeLength(text)]); bytes.Some? ==> |bytes.value| == 1
  {
    assert text[..EscapeLength(text)][0] == BACKSLASH;
  }

  lemma {:induction false} LoneDecodesIff(text: Bytes, path: Bytes)
    requires |text| == 2 && text[0] != BACKSLASH && text[1] == BACKSLASH
    requires Decode(Parts(text)) == Some(text)
    ensures Decode(Parts(text)) == Some(path) <==> Gives(text, path)
  {
    if path != [] && path != text {
      forall n | 1 <= n <= |text| && Piece(text[..n], path[0]) ensures !Gives(text[n..], path[1..]) {
        LiteralPiece(text, n, path[0]);
        assert text[1..] == [BACKSLASH];
        LoneGivesNothing(path[1..]);
      }
    }
  }

  lemma {:induction false} LoneGivesNothing(path: Bytes)
    ensures !Gives([BACKSLASH], path)
  {
    if path != [] {
      forall n | 1 <= n <= 1 ensures !Piece([BACKSLASH][..n], path[0]) { assert [BACKSLASH][..n] == [BACKSLASH]; }
    }
  }

  lemma {:induction false} LiteralDecodesIff(text: Bytes, path: Bytes)
    requires text != [] && text[0] != BACKSLASH && text[1..] != [BACKSLASH]
    ensures Decode(Parts(text)) == Some(path) <==> Gives(text, path)
    decreases |text|, 0
  {
    LiteralStarts(text);
    if path != [] {
      DecodesIff(text[1..], path[1..]);
      forall n | 1 <= n <= |text| ensures Piece(text[..n], path[0]) <==> n == 1 && text[0] == path[0] {
        LiteralPiece(text, n, path[0]);
      }
      assert path == [path[0]] + path[1..];
      assert !LoneBackslash(text, path);
    }
  }

  /** The value reads as the path: as a quoted text that gives it, or as itself where it gives none. */
  ghost predicate ReadsAs(value: Bytes, path: Bytes) {
    if Enclosed(value) && GivesAny(value[1..|value| - 1]) then Gives(value[1..|value| - 1], path) else path == value
  }

  ghost predicate GivesAny(text: Bytes) {
    exists path :: Gives(text, path)
  }

  lemma UnquotedIff(value: Bytes, path: Bytes)
    ensures Unquoted(value) == path <==> ReadsAs(value, path)
  {
    if Enclosed(value) {
      var text := value[1..|value| - 1];
      DecodesIff(text, path);
      if Decode(Parts(text)).Some? { DecodesIff(text, Decode(Parts(text)).value); }
      forall other | Gives(text, other) ensures Decode(Parts(text)) == Some(other) { DecodesIff(text, other); }
    }
  }

  /** No path is read beside a marker if and only if the null device is named there, plainly or quoted. */
  lemma SideNoneIff(value: Bytes, prefix: Bytes)
    ensures DiffSidePath(value, prefix).None? <==>
              var text := Untabbed(value);
              text == DEV_NULL || (Enclosed(text) && Gives(text[1..|text| - 1], DEV_NULL))
  {
    UnquotedIff(Untabbed(value), DEV_NULL);
  }

  /** A path without the prefix comes back whole, in either spelling. */
  lemma UnprefixedSide(path: Bytes, prefix: Bytes, forms: Option<seq<Form>>, tabbed: bool)
    requires !StartsWith(path, prefix) && path != DEV_NULL
    requires forms.Some? ==> Spells(path, forms.value)
    requires forms.None? ==> !Enclosed(path) && (path == [] || path[|path| - 1] != TAB)
    ensures var text := if forms.Some? then Quote(path, forms.value) else path;
            DiffSidePath(if tabbed then text + [TAB] else text, prefix) == Some(path)
  {
    if forms.Some? {
      QuotedPathRoundTrip(path, forms.value);
      QuoteEnds(path, forms.value);
      UntabbedIs(Quote(path, forms.value), tabbed);
    } else {
      UntabbedIs(path, tabbed);
    }
  }

  // ----- Headers -----

  lemma {:induction false} SpelledCloses(path: Bytes, forms: seq<Form>)
    requires Spells(path, forms)
    ensures ClosesQuote(Spelled(path, forms) + [DOUBLE_QUOTE])
    decreases |path|
  {
    if path != [] {
      var here, rest := Spell(path[0], forms[0]), Spelled(path[1..], forms[1..]) + [DOUBLE_QUOTE];
      SpelledCloses(path[1..], forms[1..]);
      var text := here + rest;
      assert Spelled(path, forms) + [DOUBLE_QUOTE] == text;
      match forms[0] {
        case Literal => assert text[1..] == rest;
        case Named => assert text[2..] == rest;
        case Octal =>
          assert text[2..][1..] == text[3..] && text[3..][1..] == rest;
      }
    }
  }

  lemma QuoteIsQuoted(path: Bytes, forms: seq<Form>)
    requires Spells(path, forms)
    ensures IsQuoted(Quote(path, forms))
  {
    SpelledCloses(path, forms);
    assert Quote(path, forms)[1..] == Spelled(path, forms) + [DOUBLE_QUOTE];
  }

  /** A quoted path ends at one place: no proper prefix of it, and no longer text, is quoted too. */
  lemma {:induction false} ClosesOnce(t: Bytes, more: Bytes)
    requires ClosesQuote(t) && more != []
    ensures !ClosesQuote(t + more)
    decreases |t|
  {
    if t[0] == BACKSLASH {
      assert (t + more)[2..] == t[2..] + more;
      ClosesOnce(t[2..], more);
    } else if t[0] != DOUBLE_QUOTE {
      assert (t + more)[1..] == t[1..] + more;
      ClosesOnce(t[1..], more);
    }
  }

  /** A quote inside a quoted path, before its last byte, is escaped: a backslash comes right before it. */
  lemma {:induction false} InnerQuoteEscaped(t: Bytes, i: nat)
    requires ClosesQuote(t) && i < |t| - 1 && t[i] == DOUBLE_QUOTE
    ensures 0 < i && t[i - 1] == BACKSLASH
    decreases |t|
  {
    if t[0] == BACKSLASH {
      if i > 1 { InnerQuoteEscaped(t[2..], i - 2); }
    } else {
      InnerQuoteEscaped(t[1..], i - 1);
    }
  }

  lemma RestOf(oldText: Bytes, newText: Bytes)
    ensures var line := HeaderLine(oldText, newText);
            StartsWith(line, HEADER) && line[|HEADER|..] == oldText + [SPACE] + newText
  {
  }

  /** Two texts that part at the space between them and nowhere before are read as the paths they spell. */
  lemma ReadApart(oldText: Bytes, newText: Bytes)
    requires var rest := oldText + [SPACE] + newText;
             !SameHalves(rest) && forall j: nat :: j < |oldText| ==> !IsSplit(rest, j)
    requires IsQuoted(oldText) || StartsWith(oldText, OLD_PREFIX)
    requires IsQuoted(newText) || StartsWith(newText, NEW_PREFIX)
    requires StartsWith(Unquoted(oldText), OLD_PREFIX) && StartsWith(Unquoted(newText), NEW_PREFIX)
    ensures DiffHeaderPaths(HeaderLine(oldText, newText)) == Some(Names(Unquoted(oldText)[2..], Unquoted(newText)[2..]))
  {
    RestOf(oldText, newText);
    var rest := oldText + [SPACE] + newText;
    assert rest[..|oldText|] == oldText && rest[|oldText| + 1..] == newText;
    assert IsSplit(rest, |oldText|);
    assert FirstSplit(rest, 0) == Some(|oldText|);
  }

  /** A path twice over, with the two prefixes, is two equal halves of it. */
  lemma HalvesOf(path: Bytes)
    ensures var rest := OLD_PREFIX + path + SEPARATOR + path;
            SameHalves(rest) && rest[2..(|rest| - 1) / 2] == path
  {
    var rest := OLD_PREFIX + path + SEPARATOR + path;
    var half := |path| + 2;
    assert half == (|rest| - 1) / 2;
    assert rest[..2] == OLD_PREFIX && rest[half + 1..half + 3] == NEW_PREFIX;
    assert rest[2..half] == path && rest[half + 3..] == path;
  }

  /** A file that kept its name, unquoted, is recovered even when the name holds " b/". */
  lemma KeptNameRoundTrip(path: Bytes)
    ensures DiffHeaderPaths(HeaderLine(OLD_PREFIX + path, NEW_PREFIX + path)) == Some(Names(path, path))
  {
    RestOf(OLD_PREFIX + path, NEW_PREFIX + path);
    assert OLD_PREFIX + path + [SPACE] + (NEW_PREFIX + path) == OLD_PREFIX + path + SEPARATOR + path;
    HalvesOf(path);
  }

  lemma QuotedPartsOnce(oldText: Bytes, newText: Bytes, j: nat)
    requires IsQuoted(oldText) && j < |oldText|
    ensures !IsSplit(oldText + [SPACE] + newText, j)
  {
    var left := (oldText + [SPACE] + newText)[..j];
    assert left == oldText[..j];
    if IsQuoted(left) {
      assert oldText[1..] == left[1..] + oldText[j..];
      ClosesOnce(left[1..], oldText[j..]);
    }
  }

  /** Behind a quoted old path, the new one is recovered in any spelling Git gives it. */
  lemma OldQuotedRoundTrip(oldPath: Bytes, oldForms: seq<Form>, newPath: Bytes, newForms: Option<seq<Form>>)
    requires Spells(OLD_PREFIX + oldPath, oldForms)
    requires newForms.Some? ==> Spells(NEW_PREFIX + newPath, newForms.value)
    ensures var newText := if newForms.Some? then Quote(NEW_PREFIX + newPath, newForms.value) else NEW_PREFIX + newPath;
            DiffHeaderPaths(HeaderLine(Quote(OLD_PREFIX + oldPath, oldForms), newText)) == Some(Names(oldPath, newPath))
  {
    var oldText := Quote(OLD_PREFIX + oldPath, oldForms);
    var newText := if newForms.Some? then Quote(NEW_PREFIX + newPath, newForms.value) else NEW_PREFIX + newPath;
    QuoteIsQuoted(OLD_PREFIX + oldPath, oldForms);
    QuotedPathRoundTrip(OLD_PREFIX + oldPath, oldForms);
    if newForms.Some? {
      QuoteIsQuoted(NEW_PREFIX + newPath, newForms.value);
      QuotedPathRoundTrip(NEW_PREFIX + newPath, newForms.value);
    }
    var rest := oldText + [SPACE] + newText;
    assert rest[0] == DOUBLE_QUOTE;
    forall j: nat | j < |oldText| ensures !IsSplit(rest, j) {
      QuotedPartsOnce(oldText, newText, j);
    }
    ReadApart(oldText, newText);
    assert (OLD_PREFIX + oldPath)[2..] == oldPath && (NEW_PREFIX + newPath)[2..] == newPath;
  }

  lemma HalvesAt(rest: Bytes, half: nat)
    requires SameHalves(rest) && half == (|rest| - 1) / 2
    ensures |rest| == 2 * half + 1 && 2 <= half
    ensures rest[half] == SPACE && rest[half + 1] == LETTER_B && rest[half + 2] == SLASH
    ensures forall i :: 2 <= i < half ==> rest[i] == rest[i + half + 1]
  {
    assert rest[half + 1] == rest[half + 1..half + 3][0] && rest[half + 2] == rest[half + 1..half + 3][1];
    forall i | 2 <= i < half ensures rest[i] == rest[i + half + 1] {
      assert rest[2..half][i - 2] == rest[half + 3..][i - 2];
    }
  }

  lemma QuoteOpens(newPath: Bytes, newForms: seq<Form>)
    requires Spells(NEW_PREFIX + newPath, newForms)
    ensures var text := Quote(NEW_PREFIX + newPath, newForms);
            3 <= |text| && text[0] == text[|text| - 1] == DOUBLE_QUOTE && (text[1] == LETTER_B || text[1] == BACKSLASH)
  {
    var full := NEW_PREFIX + newPath;
    assert Spelled(full, newForms)[0] == Spell(full[0], newForms[0])[0];
  }

  /**
   * An unquoted path before a quoted one reads as two equal halves only if it holds a quote, or the
   * quoted text opens with a space.
   */
  lemma QuotedNewHalves(oldPath: Bytes, newText: Bytes)
    requires IsQuoted(newText) && 3 <= |newText| && newText[|newText| - 1] == DOUBLE_QUOTE
    requires SameHalves(OLD_PREFIX + oldPath + [SPACE] + newText)
    ensures DOUBLE_QUOTE in oldPath || newText[1] == SPACE
  {
    var gap := 2 + |oldPath|;
    var rest := OLD_PREFIX + oldPath + [SPACE] + newText;
    var half := (|rest| - 1) / 2;
    HalvesAt(rest, half);
    assert rest[2 * half] == DOUBLE_QUOTE && rest[gap] == SPACE && rest[gap + 1] == DOUBLE_QUOTE;
    if half <= gap {
      assert rest[half - 1] == oldPath[half - 3];
    } else if half == gap + 2 {
      assert rest[half] == newText[1];
    } else {
      // The second half would repeat the space and quote that open the new path's text.
      assert rest[gap + half + 2] == newText[half + 1] && rest[gap + half + 1] == newText[half];
      InnerQuoteEscaped(newText[1..], half);
    }
  }

  /** A space before the one that parts the paths parts them only inside an old path that holds " b/" or a quote. */
  lemma EarlierSplitSeparates(oldPath: Bytes, newText: Bytes, j: nat)
    requires DOUBLE_QUOTE !in oldPath
    requires j < 2 + |oldPath|
    requires IsSplit(OLD_PREFIX + oldPath + [SPACE] + newText, j)
    ensures SeparatorAt(oldPath, j - 2)
  {
    var rest := OLD_PREFIX + oldPath + [SPACE] + newText;
    var tail := rest[j + 1..];
    assert rest[0] == LETTER_A && rest[1] == SLASH;
    assert forall i :: 2 <= i < 2 + |oldPath| ==> rest[i] == oldPath[i - 2];
    assert tail[0] == rest[j + 1];
    assert !IsQuoted(tail);
    assert tail[0] == tail[..2][0] == LETTER_B && tail[1] == tail[..2][1] == SLASH;
    assert tail[1] == rest[j + 2];
  }

  /** When the old path holds " b/", the header parts before its end. */
  lemma EarlierSplit(oldPath: Bytes, newText: Bytes)
    requires HoldsSeparator(oldPath)
    ensures var rest := OLD_PREFIX + oldPath + [SPACE] + newText;
            var split := FirstSplit(rest, 0);
            split.Some? && 2 <= split.value < 2 + |oldPath| &&
            rest[..split.value] == OLD_PREFIX + oldPath[..split.value - 2]
  {
    var rest := OLD_PREFIX + oldPath + [SPACE] + newText;
    assert rest[0] == LETTER_A && rest[1] == SLASH;
    assert forall i :: 2 <= i < 2 + |oldPath| ==> rest[i] == oldPath[i - 2];
    var i :| SeparatorAt(oldPath, i);
    assert rest[i + 3..][..2] == NEW_PREFIX;
    assert rest[..i + 2][..2] == OLD_PREFIX;
    assert IsSplit(rest, i + 2);
    var split := FirstSplit(rest, 0);
    assert rest[..split.value] == OLD_PREFIX + oldPath[..split.value - 2];
  }

  lemma NewQuotedApart(oldPath: Bytes, newPath: Bytes, newForms: seq<Form>)
    requires DOUBLE_QUOTE !in oldPath && Spells(NEW_PREFIX + newPath, newForms)
    ensures !SameHalves(OLD_PREFIX + oldPath + [SPACE] + Quote(NEW_PREFIX + newPath, newForms))
  {
    var newText := Quote(NEW_PREFIX + newPath, newForms);
    QuoteIsQuoted(NEW_PREFIX + newPath, newForms);
    QuoteOpens(newPath, newForms);
    if SameHalves(OLD_PREFIX + oldPath + [SPACE] + newText) { QuotedNewHalves(oldPath, newText); }
  }

  lemma NewQuotedRecovered(oldPath: Bytes, newPath: Bytes, newForms: seq<Form>)
    requires DOUBLE_QUOTE !in oldPath && Spells(NEW_PREFIX + newPath, newForms) && !HoldsSeparator(oldPath)
    ensures DiffHeaderPaths(HeaderLine(OLD_PREFIX + oldPath, Quote(NEW_PREFIX + newPath, newForms))) ==
            Some(Names(oldPath, newPath))
  {
    var oldText, newText := OLD_PREFIX + oldPath, Quote(NEW_PREFIX + newPath, newForms);
    RestOf(oldText, newText);
    NewQuotedApart(oldPath, newPath, newForms);
    QuoteIsQuoted(NEW_PREFIX + newPath, newForms);
    QuotedPathRoundTrip(NEW_PREFIX + newPath, newForms);
    forall j: nat | j < |oldText| && IsSplit(oldText + [SPACE] + newText, j) ensures HoldsSeparator(oldPath) {
      EarlierSplitSeparates(oldPath, newText, j);
    }
    ReadApart(oldText, newText);
    assert oldText[2..] == oldPath && (NEW_PREFIX + newPath)[2..] == newPath;
  }

  lemma NewQuotedMisread(oldPath: Bytes, newPath: Bytes, newForms: seq<Form>)
    requires DOUBLE_QUOTE !in oldPath && Spells(NEW_PREFIX + newPath, newForms) && HoldsSeparator(oldPath)
    ensures DiffHeaderPaths(HeaderLine(OLD_PREFIX + oldPath, Quote(NEW_PREFIX + newPath, newForms))) !=
            Some(Names(oldPath, newPath))
  {
    var oldText, newText := OLD_PREFIX + oldPath, Quote(NEW_PREFIX + newPath, newForms);
    RestOf(oldText, newText);
    NewQuotedApart(oldPath, newPath, newForms);
    EarlierSplit(oldPath, newText);
  }

  /** Before a quoted new path, a quote-free unquoted old path is recovered exactly when it holds no " b/". */
  lemma NewQuotedRoundTrip(oldPath: Bytes, newPath: Bytes, newForms: seq<Form>)
    requires DOUBLE_QUOTE !in oldPath
    requires Spells(NEW_PREFIX + newPath, newForms)
    ensures DiffHeaderPaths(HeaderLine(OLD_PREFIX + oldPath, Quote(NEW_PREFIX + newPath, newForms))) ==
            Some(Names(oldPath, newPath))
       <==> !HoldsSeparator(oldPath)
  {
    if HoldsSeparator(oldPath) {
      NewQuotedMisread(oldPath, newPath, newForms);
    } else {
      NewQuotedRecovered(oldPath, newPath, newForms);
    }
  }

  /**
   * Two equal halves over unquoted paths mean the name was kept, the new path mirrors the old, or
   * the old holds " b/".
   */
  lemma HalvesMirror(oldPath: Bytes, newPath: Bytes)
    requires SameHalves(OLD_PREFIX + oldPath + [SPACE] + (NEW_PREFIX + newPath))
    ensures oldPath == newPath || Mirrors(oldPath, newPath) || HoldsSeparator(oldPath)
  {
    var rest := OLD_PREFIX + oldPath + [SPACE] + (NEW_PREFIX + newPath);
    var gap, half := 2 + |oldPath|, (|rest| - 1) / 2;
    HalvesAt(rest, half);
    assert rest == OLD_PREFIX + oldPath + SEPARATOR + newPath;
    if half < gap {
      EarlierHalfSeparates(oldPath, newPath, half);
    } else if half == gap {
      HalfKeeps(oldPath, newPath);
    } else {
      assert rest[2..half] == rest[half + 3..];
      LaterHalvesRepeat(oldPath, newPath, half - gap - 3);
    }
  }

  lemma EarlierHalfSeparates(oldPath: Bytes, newPath: Bytes, half: nat)
    requires 2 <= half < 2 + |oldPath| && SeparatorAt(OLD_PREFIX + oldPath + SEPARATOR + newPath, half)
    ensures HoldsSeparator(oldPath)
  {
    var rest := OLD_PREFIX + oldPath + SEPARATOR + newPath;
    assert forall i :: 0 <= i < |oldPath| ==> rest[i + 2] == oldPath[i];
    assert rest[2 + |oldPath|] == SPACE && rest[2 + |oldPath| + 1] == LETTER_B;
    assert SeparatorAt(oldPath, half - 2);
  }

  lemma HalfKeeps(oldPath: Bytes, newPath: Bytes)
    requires SameHalves(OLD_PREFIX + oldPath + SEPARATOR + newPath) && |newPath| == |oldPath|
    ensures oldPath == newPath
  {
    var rest := OLD_PREFIX + oldPath + SEPARATOR + newPath;
    assert rest[2..2 + |oldPath|] == oldPath && rest[2 + |oldPath| + 3..] == newPath;
  }

  lemma LaterHalvesRepeat(oldPath: Bytes, newPath: Bytes, n: int)
    requires var rest := OLD_PREFIX + oldPath + SEPARATOR + newPath;
             var half := 2 + |oldPath| + 3 + n;
             |rest| == 2 * half + 1 && -3 < n && SeparatorAt(rest, half) && rest[2..half] == rest[half + 3..]
    ensures Mirrors(oldPath, newPath)
  {
    var rest := OLD_PREFIX + oldPath + SEPARATOR + newPath;
    var gap := 2 + |oldPath|;
    var half := gap + 3 + n;
    assert rest[gap + 1] == LETTER_B && rest[gap + 2] == SLASH;
    assert 0 <= n;
    assert rest[half..] == newPath[n..] && rest[half + 3..] == newPath[n + 3..];
    assert newPath[n] == rest[half] && newPath[n + 1] == rest[half + 1] && newPath[n + 2] == rest[half + 2];
    assert rest[2..half] == oldPath + SEPARATOR + newPath[..n];
    RepeatMirrors(oldPath, newPath, n);
  }

  lemma RepeatMirrors(oldPath: Bytes, newPath: Bytes, n: nat)
    requires |newPath| == 2 * n + 6 + |oldPath| && SeparatorAt(newPath, n)
    requires newPath[n + 3..] == oldPath + SEPARATOR + newPath[..n]
    ensures Mirrors(oldPath, newPath)
  {
    assert newPath[n..n + 3] == SEPARATOR;
    assert newPath == newPath[..n] + newPath[n..n + 3] + newPath[n + 3..];
    assert newPath == newPath[..n] + SEPARATOR + oldPath + SEPARATOR + newPath[..n];
  }

  lemma MirrorHalves(oldPath: Bytes, newPath: Bytes)
    requires Mirrors(oldPath, newPath)
    ensures var rest := OLD_PREFIX + oldPath + [SPACE] + (NEW_PREFIX + newPath);
            SameHalves(rest) && |rest[2..(|rest| - 1) / 2]| > |oldPath|
  {
    var n := (|newPath| - 6 - |oldPath|) / 2;
    var kept := oldPath + SEPARATOR + newPath[..n];
    assert OLD_PREFIX + oldPath + [SPACE] + (NEW_PREFIX + newPath) == OLD_PREFIX + kept + SEPARATOR + kept;
    HalvesOf(kept);
  }

  /**
   * Exactly when an unquoted header is read as the two paths it was printed from: the
   * name was kept, or the old path holds no " b/" and the new one does not mirror it.
   */
  lemma UnquotedRoundTrip(oldPath: Bytes, newPath: Bytes)
    requires DOUBLE_QUOTE !in oldPath
    ensures DiffHeaderPaths(HeaderLine(OLD_PREFIX + oldPath, NEW_PREFIX + newPath)) == Some(Names(oldPath, newPath))
       <==> oldPath == newPath || (!HoldsSeparator(oldPath) && !Mirrors(oldPath, newPath))
  {
    var oldText, newText := OLD_PREFIX + oldPath, NEW_PREFIX + newPath;
    RestOf(oldText, newText);
    var rest := oldText + [SPACE] + newText;
    if oldPath == newPath {
      KeptNameRoundTrip(oldPath);
    } else if Mirrors(oldPath, newPath) {
      MirrorHalves(oldPath, newPath);
    } else if HoldsSeparator(oldPath) {
      EarlierSplit(oldPath, newText);
    } else {
      if SameHalves(rest) { HalvesMirror(oldPath, newPath); }
      forall j: nat | j < |oldText| && IsSplit(rest, j) ensures HoldsSeparator(oldPath) {
        EarlierSplitSeparates(oldPath, newText, j);
      }
      ReadApart(oldText, newText);
      assert oldText[2..] == oldPath && (NEW_PREFIX + newPath)[2..] == newPath;
    }
  }

  /** Two renames print one header, so no reader can recover both. */
  lemma OneHeaderForTwo(x: Bytes, y: Bytes, z: Bytes)
    ensures HeaderLine(OLD_PREFIX + (x + SEPARATOR + y), NEW_PREFIX + z) ==
            HeaderLine(OLD_PREFIX + x, NEW_PREFIX + (y + SEPARATOR + z))
    ensures Names(x + SEPARATOR + y, z) != Names(x, y + SEPARATOR + z)
  {
    assert |x + SEPARATOR + y| > |x|;
    assert OLD_PREFIX + (x + SEPARATOR + y) + [SPACE] + (NEW_PREFIX + z) ==
           OLD_PREFIX + x + [SPACE] + (NEW_PREFIX + (y + SEPARATOR + z));
  }

  /** Such a header reads as the rename whose old path is the shorter: `x b/y` to `z` as `x` to `y b/z`. */
  lemma UnquotedMisread()
    ensures var x, y, z: Bytes := [120], [121], [122];
            DiffHeaderPaths(HeaderLine(OLD_PREFIX + (x + SEPARATOR + y), NEW_PREFIX + z)) ==
            Some(Names(x, y + SEPARATOR + z))
  {
    var x, y, z: Bytes := [120], [121], [122];
    OneHeaderForTwo(x, y, z);
    UnquotedRoundTrip(x, y + SEPARATOR + z);
  }

  /** A rename between unquoted paths that hold no " b/" is always recovered. */
  lemma RenameRoundTrip(oldPath: Bytes, newPath: Bytes)
    requires DOUBLE_QUOTE !in oldPath
    requires !HoldsSeparator(oldPath) && !HoldsSeparator(newPath)
    ensures DiffHeaderPaths(HeaderLine(OLD_PREFIX + oldPath, NEW_PREFIX + newPath)) == Some(Names(oldPath, newPath))
  {
    UnquotedRoundTrip(oldPath, newPath);
    if Mirrors(oldPath, newPath) {
      assert SeparatorAt(newPath, (|newPath| - 6 - |oldPath|) / 2);
    }
  }

  /** The header is these two texts, each quoted or with its prefix, and they read as the prefixed paths. */
  ghost predicate SplitsAs(line: Bytes, oldText: Bytes, newText: Bytes, names: Names) {
    line == HeaderLine(oldText, newText) && TextsRead(oldText, newText, names)
  }

  ghost predicate TextsRead(oldText: Bytes, newText: Bytes, names: Names) {
    && (IsQuoted(oldText) || StartsWith(oldText, OLD_PREFIX)) && (IsQuoted(newText) || StartsWith(newText, NEW_PREFIX))
    && Unquoted(oldText) == OLD_PREFIX + names.oldPath && Unquoted(newText) == NEW_PREFIX + names.newPath
  }

  lemma PrefixDropped(path: Bytes, prefix: Bytes)
    requires StartsWith(path, prefix)
    ensures path == prefix + path[|prefix|..]
  {
  }

  lemma HalvesTexts(rest: Bytes)
    requires SameHalves(rest)
    ensures var half := (|rest| - 1) / 2; var kept := rest[2..half];
            rest[..half] == OLD_PREFIX + kept && rest[half + 1..] == NEW_PREFIX + kept
  {
    var half := (|rest| - 1) / 2;
    assert rest[..half][..2] == rest[..2] && rest[..half][2..] == rest[2..half];
    assert rest[half + 1..][..2] == rest[half + 1..half + 3] && rest[half + 1..][2..] == rest[half + 3..];
    PrefixDropped(rest[..half], OLD_PREFIX);
    PrefixDropped(rest[half + 1..], NEW_PREFIX);
  }

  lemma HeaderParts(line: Bytes, k: nat)
    requires StartsWith(line, HEADER) && k < |line| - |HEADER| && line[|HEADER| + k] == SPACE
    ensures line == HeaderLine(line[|HEADER|..][..k], line[|HEADER|..][k + 1..])
  {
    var rest := line[|HEADER|..];
    PrefixDropped(line, HEADER);
    assert rest == rest[..k] + [SPACE] + rest[k + 1..];
  }

  lemma HalvesSplit(line: Bytes, names: Names)
    requires StartsWith(line, HEADER) && SameHalves(line[|HEADER|..]) && DiffHeaderPaths(line) == Some(names)
    ensures var rest := line[|HEADER|..]; var half := (|rest| - 1) / 2;
            SplitsAs(line, rest[..half], rest[half + 1..], names)
  {
    var rest := line[|HEADER|..];
    var half := (|rest| - 1) / 2;
    HalvesTexts(rest);
    HeaderParts(line, half);
    KeptNames(line, names);
    KeptRead(names.oldPath);
  }

  lemma KeptRead(kept: Bytes)
    ensures TextsRead(OLD_PREFIX + kept, NEW_PREFIX + kept, Names(kept, kept))
  {
    PlainPrefix(OLD_PREFIX, kept);
    PlainPrefix(NEW_PREFIX, kept);
  }

  lemma KeptNames(line: Bytes, names: Names)
    requires StartsWith(line, HEADER) && SameHalves(line[|HEADER|..]) && DiffHeaderPaths(line) == Some(names)
    ensures var rest := line[|HEADER|..]; names.oldPath == names.newPath == rest[2..(|rest| - 1) / 2]
  {
  }

  lemma PlainPrefix(prefix: Bytes, path: Bytes)
    requires prefix == OLD_PREFIX || prefix == NEW_PREFIX
    ensures Unquoted(prefix + path) == prefix + path && StartsWith(prefix + path, prefix)
  {
    assert (prefix + path)[0] == prefix[0];
  }

  lemma SpaceSplit(line: Bytes, names: Names)
    requires StartsWith(line, HEADER) && !SameHalves(line[|HEADER|..]) && DiffHeaderPaths(line) == Some(names)
    ensures var rest := line[|HEADER|..]; var split := FirstSplit(rest, 0);
            split.Some? && split.value < |rest| &&
            SplitsAs(line, rest[..split.value], rest[split.value + 1..], names)
  {
    var rest := line[|HEADER|..];
    var k := FirstSplit(rest, 0).value;
    HeaderParts(line, k);
    PrefixDropped(Unquoted(rest[..k]), OLD_PREFIX);
    PrefixDropped(Unquoted(rest[k + 1..]), NEW_PREFIX);
  }

  /** What a header is read as is what two texts in it spell. */
  lemma HeaderReads(line: Bytes) returns (oldText: Bytes, newText: Bytes)
    requires DiffHeaderPaths(line).Some?
    ensures SplitsAs(line, oldText, newText, DiffHeaderPaths(line).value)
  {
    var rest, names := line[|HEADER|..], DiffHeaderPaths(line).value;
    var k: nat := if SameHalves(rest) then (|rest| - 1) / 2 else FirstSplit(rest, 0).value;
    oldText, newText := rest[..k], rest[k + 1..];
    if SameHalves(rest) { HalvesSplit(line, names); } else { SpaceSplit(line, names); }
  }
}
