/**
 Keyboard shortcuts as text: a parser with aliases, ASCII case folding, blanks
 and duplicate detection, and a printer that emits one canonical form.
 */
module KeyBinding {
  import opened Prelude

  datatype Modifiers = Modifiers(ctrl: bool, shift: bool, alt: bool, cmd: bool)

  const NONE := Modifiers(false, false, false, false)

  datatype Flag = Ctrl | Shift | Alt | Cmd

  type FunctionNumber = n: nat | 1 <= n <= 24 witness 1

  datatype Key =
    | Char(c: char)
    | Escape | Tab | Enter | Backspace | Delete | Home | End | PageUp | PageDown
    | ArrowUp | ArrowDown | ArrowLeft | ArrowRight | Space
    | F(n: FunctionNumber)

  datatype Binding = Binding(modifiers: Modifiers, key: Key)

  datatype ParseError =
    | Empty
    | EmptyToken(input: string)
    | UnknownModifier(input: string, token: string)
    | DuplicateModifier(input: string, modifier: Flag)
    | UnknownKey(input: string, token: string)
    | MissingKey(input: string)

  function IsSet(flag: Flag, m: Modifiers): bool {
    match flag case Ctrl => m.ctrl case Shift => m.shift case Alt => m.alt case Cmd => m.cmd
  }

  function SetFlag(flag: Flag, m: Modifiers): Modifiers {
    match flag
    case Ctrl => m.(ctrl := true)
    case Shift => m.(shift := true)
    case Alt => m.(alt := true)
    case Cmd => m.(cmd := true)
  }

  // ------------------------------------------------------------------
  // Tokens.
  // ------------------------------------------------------------------

  function LowerChar(c: char): char {
    if 'A' <= c <= 'Z' then (c as int + 32) as char else c
  }

  function Lower(s: string): (r: string)
    ensures |r| == |s| && forall i :: 0 <= i < |s| ==> r[i] == LowerChar(s[i])
  {
    seq(|s|, i requires 0 <= i < |s| => LowerChar(s[i]))
  }

  function Plus(s: string): (i: nat)
    ensures i <= |s| && (forall k :: 0 <= k < i ==> s[k] != '+') && (i < |s| ==> s[i] == '+')
  {
    if s == "" || s[0] == '+' then 0 else 1 + Plus(s[1..])
  }

  function Split(s: string): (r: seq<string>)
    ensures |r| >= 1
    decreases |s|
  {
    var i := Plus(s);
    if i == |s| then [s] else [s[..i]] + Split(s[i + 1..])
  }

  function TrimAll(tokens: seq<string>): (r: seq<string>)
    ensures |r| == |tokens|
  {
    seq(|tokens|, i requires 0 <= i < |tokens| => Trim(tokens[i]))
  }

  /** The trimmed segments of the trimmed input; blank input is one blank token. */
  function Tokens(input: string): (r: seq<string>)
    ensures |r| >= 1
  {
    TrimAll(Split(Trim(input)))
  }

  function FlagOf(token: string): Option<Flag> {
    match token
    case "ctrl" => Some(Ctrl)
    case "control" => Some(Ctrl)
    case "shift" => Some(Shift)
    case "alt" => Some(Alt)
    case "option" => Some(Alt)
    case "cmd" => Some(Cmd)
    case "meta" => Some(Cmd)
    case "super" => Some(Cmd)
    case _ => None
  }

  /** `str::parse::<u8>`: an optional plus sign, digits, and no overflow. */
  function ParseU8(s: string): Option<nat> {
    var digits := if s != "" && s[0] == '+' then s[1..] else s;
    if digits != "" && AllDigits(digits) && Number(digits) <= 255 then Some(Number(digits)) else None
  }

  function FunctionKey(n: nat): Option<Key> {
    if 1 <= n <= 24 then Some(F(n)) else None
  }

  function NamedKey(token: string): Option<Key> {
    match token
    case "escape" => Some(Escape)
    case "esc" => Some(Escape)
    case "tab" => Some(Tab)
    case "enter" => Some(Enter)
    case "return" => Some(Enter)
    case "backspace" => Some(Backspace)
    case "delete" => Some(Delete)
    case "del" => Some(Delete)
    case "home" => Some(Home)
    case "end" => Some(End)
    case "pageup" => Some(PageUp)
    case "page_up" => Some(PageUp)
    case "pgup" => Some(PageUp)
    case "pagedown" => Some(PageDown)
    case "page_down" => Some(PageDown)
    case "pgdn" => Some(PageDown)
    case "arrowup" => Some(ArrowUp)
    case "arrow_up" => Some(ArrowUp)
    case "up" => Some(ArrowUp)
    case "arrowdown" => Some(ArrowDown)
    case "arrow_down" => Some(ArrowDown)
    case "down" => Some(ArrowDown)
    case "arrowleft" => Some(ArrowLeft)
    case "arrow_left" => Some(ArrowLeft)
    case "left" => Some(ArrowLeft)
    case "arrowright" => Some(ArrowRight)
    case "arrow_right" => Some(ArrowRight)
    case "right" => Some(ArrowRight)
    case "space" => Some(Space)
    case _ => None
  }

  function ParseKey(token: string): Option<Key> {
    var number := if token != "" && token[0] == 'f' then ParseU8(token[1..]) else None;
    if number.Some? then FunctionKey(number.value)
    else if NamedKey(token).Some? then NamedKey(token)
    else if |token| == 1 then Some(Char(token[0]))
    else None
  }

  // ------------------------------------------------------------------
  // Parsing and printing.
  // ------------------------------------------------------------------

  /** The modifier loop from `m` on. */
  function FoldFlags(input: string, tokens: seq<string>, m: Modifiers): Result<Modifiers, ParseError>
    decreases |tokens|
  {
    if tokens == [] then Success(m)
    else
      var flag := FlagOf(Lower(tokens[0]));
      if flag.None? then Failure(UnknownModifier(input, tokens[0]))
      else if IsSet(flag.value, m) then Failure(DuplicateModifier(input, flag.value))
      else FoldFlags(input, tokens[1..], SetFlag(flag.value, m))
  }

  function Parse(input: string): Result<Binding, ParseError> {
    var tokens := Tokens(input);
    var last := tokens[|tokens| - 1];
    if Trim(input) == "" then Failure(Empty)
    else if "" in tokens then Failure(EmptyToken(input))
    else if FlagOf(Lower(last)).Some? then Failure(MissingKey(input))
    else if ParseKey(Lower(last)).None? then Failure(UnknownKey(input, last))
    else match FoldFlags(input, tokens[..|tokens| - 1], NONE)
      case Failure(e) => Failure(e)
      case Success(m) => Success(Binding(m, ParseKey(Lower(last)).value))
  }

  method ParseBinding(input: string) returns (r: Result<Binding, ParseError>)
    ensures r == Parse(input)
  {
    var trimmed := Trim(input);
    if trimmed == "" {
      return Failure(Empty);
    }
    var segments := TrimAll(Split(trimmed));
    if "" in segments {
      return Failure(EmptyToken(input));
    }
    var keyToken, modifierTokens := segments[|segments| - 1], segments[..|segments| - 1];
    var keyTokenLower := Lower(keyToken);
    if FlagOf(keyTokenLower).Some? {
      return Failure(MissingKey(input));
    }
    var key := ParseKey(keyTokenLower);
    if key.None? {
      return Failure(UnknownKey(input, keyToken));
    }
    var modifiers := ParseModifiers(input, modifierTokens);
    if modifiers.Failure? {
      return Failure(modifiers.error);
    }
    return Success(Binding(modifiers.value, key.value));
  }

  /** The modifier loop of `parse`. */
  method ParseModifiers(input: string, tokens: seq<string>) returns (r: Result<Modifiers, ParseError>)
    ensures r == FoldFlags(input, tokens, NONE)
  {
    var modifiers := NONE;
    assert tokens[0..] == tokens;
    for i := 0 to |tokens|
      invariant FoldFlags(input, tokens[i..], modifiers) == FoldFlags(input, tokens, NONE)
    {
      assert tokens[i..][0] == tokens[i] && tokens[i..][1..] == tokens[i + 1..];
      var flag := FlagOf(Lower(tokens[i]));
      if flag.None? {
        return Failure(UnknownModifier(input, tokens[i]));
      }
      if IsSet(flag.value, modifiers) {
        return Failure(DuplicateModifier(input, flag.value));
      }
      modifiers := SetFlag(flag.value, modifiers);
    }
    return Success(modifiers);
  }

  function KeyToken(key: Key): string {
    match key
    case Char(c) => [c]
    case Escape => "escape"
    case Tab => "tab"
    case Enter => "enter"
    case Backspace => "backspace"
    case Delete => "delete"
    case Home => "home"
    case End => "end"
    case PageUp => "pageup"
    case PageDown => "pagedown"
    case ArrowUp => "arrowup"
    case ArrowDown => "arrowdown"
    case ArrowLeft => "arrowleft"
    case ArrowRight => "arrowright"
    case Space => "space"
    case F(n) => "f" + Decimal(n)
  }

  /** `prefix` if the modifier is held. */
  function Held(on: bool, prefix: string): string {
    if on then prefix else ""
  }

  function Display(b: Binding): string {
    Held(b.modifiers.ctrl, "ctrl+") + (Held(b.modifiers.shift, "shift+")
    + (Held(b.modifiers.alt, "alt+") + (Held(b.modifiers.cmd, "cmd+") + KeyToken(b.key))))
  }

  // ------------------------------------------------------------------
  // What the parser accepts, and what it makes of it.
  // ------------------------------------------------------------------

  /** The flags that modifier tokens name. */
  function Flags(tokens: seq<string>): (r: seq<Option<Flag>>)
    ensures |r| == |tokens|
  {
    seq(|tokens|, i requires 0 <= i < |tokens| => FlagOf(Lower(tokens[i])))
  }

  predicate DistinctFlags(flags: seq<Option<Flag>>) {
    && (forall f <- flags :: f.Some?)
    && (forall i, j :: 0 <= i < j < |flags| ==> flags[i] != flags[j])
  }

  function ModifiersOf(flags: seq<Option<Flag>>): Modifiers {
    Modifiers(Some(Ctrl) in flags, Some(Shift) in flags, Some(Alt) in flags, Some(Cmd) in flags)
  }

  lemma {:induction false} FoldIs(input: string, tokens: seq<string>, m: Modifiers)
    ensures var flags := Flags(tokens);
            var r := FoldFlags(input, tokens, m);
            && (r.Success? <==> DistinctFlags(flags) && forall f: Flag :: Some(f) in flags ==> !IsSet(f, m))
            && (r.Success? ==> forall f: Flag :: IsSet(f, r.value) <==> IsSet(f, m) || Some(f) in flags)
    decreases |tokens|
  {
    var flags := Flags(tokens);
    if tokens != [] {
      var flag, rest := flags[0], Flags(tokens[1..]);
      assert flags == [flag] + rest;
      if flag.Some? && !IsSet(flag.value, m) {
        FoldIs(input, tokens[1..], SetFlag(flag.value, m));
        assert DistinctFlags(flags) <==> DistinctFlags(rest) && flag !in rest by {
          DistinctCons(flag, rest);
        }
      } else {
        assert flag in flags;
      }
    }
  }

  lemma {:induction false} DistinctCons(flag: Option<Flag>, rest: seq<Option<Flag>>)
    requires flag.Some?
    ensures DistinctFlags([flag] + rest) <==> DistinctFlags(rest) && flag !in rest
  {
    var flags := [flag] + rest;
    assert forall i :: 0 <= i < |rest| ==> flags[i + 1] == rest[i];
    assert forall f :: f in flags <==> f == flag || f in rest;
    if DistinctFlags(flags) {
      forall i, j | 0 <= i < j < |rest| ensures rest[i] != rest[j] {
        assert flags[i + 1] != flags[j + 1];
      }
      assert forall k :: 0 < k < |flags| ==> flags[0] != flags[k];
    } else if flag !in rest {
      assert !DistinctFlags(rest) by {
        if (forall f <- rest :: f.Some?) {
          var i, j :| 0 <= i < j < |flags| && flags[i] == flags[j];
          assert flags[j] == rest[j - 1] && rest[j - 1] in rest;
          assert rest[i - 1] == rest[j - 1];
        }
      }
    }
  }

  /** `parse` succeeds exactly when no token is blank, the last one is a key and
      not a modifier name, and the others name pairwise distinct flags; the
      binding is then that key with those flags. */
  lemma {:induction false} AcceptsExactly(input: string)
    ensures var tokens := Tokens(input);
            var last, flags := Lower(tokens[|tokens| - 1]), Flags(tokens[..|tokens| - 1]);
            && (Parse(input).Success? <==>
                  "" !in tokens && ParseKey(last).Some? && FlagOf(last).None? && DistinctFlags(flags))
            && (Parse(input).Success? ==>
                  ParseKey(last).Some? && Parse(input) == Success(Binding(ModifiersOf(flags), ParseKey(last).value)))
  {
    var tokens := Tokens(input);
    if Trim(input) == "" {
      assert Split("") == [""];
      assert tokens[0] == "";
    } else {
      var flags := Flags(tokens[..|tokens| - 1]);
      FoldIs(input, tokens[..|tokens| - 1], NONE);
      var r := FoldFlags(input, tokens[..|tokens| - 1], NONE);
      if r.Success? {
        assert IsSet(Ctrl, r.value) == r.value.ctrl && IsSet(Shift, r.value) == r.value.shift
            && IsSet(Alt, r.value) == r.value.alt && IsSet(Cmd, r.value) == r.value.cmd;
      }
    }
  }

  lemma {:induction false} DistinctPermutes(a: seq<Option<Flag>>, b: seq<Option<Flag>>)
    requires multiset(a) == multiset(b) && DistinctFlags(a)
    ensures DistinctFlags(b) && ModifiersOf(a) == ModifiersOf(b)
  {
    assert forall f :: f in a <==> f in multiset(a);
    assert forall f :: f in b <==> f in multiset(b);
    forall i, j | 0 <= i < j < |b| ensures b[i] != b[j] {
      OccursOnce(a, b[i]);
      if b[i] == b[j] {
        OccursTwice(b, i, j);
      }
    }
  }

  lemma {:induction false} OccursOnce(a: seq<Option<Flag>>, f: Option<Flag>)
    requires DistinctFlags(a)
    ensures multiset(a)[f] <= 1
    decreases |a|
  {
    if a != [] {
      var init := a[..|a| - 1];
      assert a == init + [a[|a| - 1]];
      assert forall g <- init :: g in a;
      OccursOnce(init, f);
      assert f in init ==> f != a[|a| - 1];
    }
  }

  lemma OccursTwice(b: seq<Option<Flag>>, i: nat, j: nat)
    requires i < j < |b| && b[i] == b[j]
    ensures multiset(b)[b[i]] >= 2
  {
    assert b == b[..i] + [b[i]] + b[i + 1..j] + [b[j]] + b[j + 1..];
  }

  /** Only the key and the flags matter: permuting modifier tokens, swapping
      aliases or changing ASCII case leaves the result of `parse` the same. */
  lemma {:induction false} OnlyKeyAndFlagsMatter(a: string, b: string)
    requires Parse(a).Success? && "" !in Tokens(b)
    requires var s, t := Tokens(a), Tokens(b);
             && multiset(Flags(s[..|s| - 1])) == multiset(Flags(t[..|t| - 1]))
             && ParseKey(Lower(s[|s| - 1])) == ParseKey(Lower(t[|t| - 1]))
             && FlagOf(Lower(t[|t| - 1])).None?
    ensures Parse(b) == Parse(a)
  {
    AcceptsExactly(a);
    AcceptsExactly(b);
    var s, t := Tokens(a), Tokens(b);
    DistinctPermutes(Flags(s[..|s| - 1]), Flags(t[..|t| - 1]));
  }

  // ------------------------------------------------------------------
  // The spellings, and the error of every rejected input.
  // ------------------------------------------------------------------

  /** Exactly the spellings of each modifier. */
  lemma ModifierSpellings(token: string)
    ensures FlagOf(token) == Some(Ctrl) <==> token in ["ctrl", "control"]
    ensures FlagOf(token) == Some(Shift) <==> token in ["shift"]
    ensures FlagOf(token) == Some(Alt) <==> token in ["alt", "option"]
    ensures FlagOf(token) == Some(Cmd) <==> token in ["cmd", "meta", "super"]
  {}

  /** Exactly the spellings of each named key. */
  ghost predicate Spells(token: string, key: Key) {
    match key
    case Escape => token in ["escape", "esc"]
    case Tab => token in ["tab"]
    case Enter => token in ["enter", "return"]
    case Backspace => token in ["backspace"]
    case Delete => token in ["delete", "del"]
    case Home => token in ["home"]
    case End => token in ["end"]
    case PageUp => token in ["pageup", "page_up", "pgup"]
    case PageDown => token in ["pagedown", "page_down", "pgdn"]
    case ArrowUp => token in ["arrowup", "arrow_up", "up"]
    case ArrowDown => token in ["arrowdown", "arrow_down", "down"]
    case ArrowLeft => token in ["arrowleft", "arrow_left", "left"]
    case ArrowRight => token in ["arrowright", "arrow_right", "right"]
    case Space => token in ["space"]
    case Char(c) => token == [c]
    case F(n) => token != "" && token[0] == 'f' && SpellsU8(token[1..], n)
  }

  lemma NamedSpellings(token: string, key: Key)
    requires !key.Char? && !key.F?
    ensures NamedKey(token) == Some(key) <==> Spells(token, key)
  {}

  lemma NamesAreLong(token: string)
    requires NamedKey(token).Some?
    ensures |token| > 1 && !NamedKey(token).value.Char? && !NamedKey(token).value.F?
    ensures token[0] == 'f' ==> false
  {}

  /** A `u8` as the parser reads it. */
  ghost predicate SpellsU8(s: string, n: nat) {
    exists sign: string, digits: string ::
      s == sign + digits && sign in ["", "+"] && digits != "" && AllDigits(digits) && Number(digits) == n
  }

  lemma U8Of(sign: string, digits: string)
    requires sign in ["", "+"] && digits != "" && AllDigits(digits)
    ensures ParseU8(sign + digits) == if Number(digits) <= 255 then Some(Number(digits)) else None
  {
    assert digits[0] in digits;
    if sign == "" {
      assert sign + digits == digits;
    } else {
      assert (sign + digits)[1..] == digits;
    }
  }

  lemma U8Is(s: string, n: nat)
    ensures ParseU8(s) == Some(n) <==> n <= 255 && SpellsU8(s, n)
  {
    if ParseU8(s) == Some(n) {
      var sign := if s != "" && s[0] == '+' then "+" else "";
      assert s == sign + s[|sign|..];
    }
    if SpellsU8(s, n) {
      var sign: string, digits: string :|
        s == sign + digits && sign in ["", "+"] && digits != "" && AllDigits(digits) && Number(digits) == n;
      U8Of(sign, digits);
    }
  }

  lemma {:induction false} FunctionSpellings(token: string, n: FunctionNumber)
    ensures ParseKey(token) == Some(F(n)) <==> Spells(token, F(n))
  {
    if NamedKey(token).Some? {
      NamesAreLong(token);
    }
    if token != "" && token[0] == 'f' {
      U8Is(token[1..], n);
    }
  }

  /** A key token is a key exactly in these spellings: its names, `f` and the number of
      a function key with any zero padding, or any single character. */
  lemma {:induction false} KeySpellings(token: string, key: Key)
    ensures ParseKey(token) == Some(key) <==> Spells(token, key)
  {
    if key.F? {
      FunctionSpellings(token, key.n);
    } else {
      if NamedKey(token).Some? {
        NamesAreLong(token);
      }
      if !key.Char? {
        NamedSpellings(token, key);
      }
    }
  }

  /** ASCII letters fold, and nothing else does. */
  lemma LettersFold(i: nat, c: char)
    requires i < 26
    ensures LowerChar("ABCDEFGHIJKLMNOPQRSTUVWXYZ"[i]) == "abcdefghijklmnopqrstuvwxyz"[i]
    ensures c !in "ABCDEFGHIJKLMNOPQRSTUVWXYZ" ==> LowerChar(c) == c
  {
    assert 'A' <= c <= 'Z' ==> "ABCDEFGHIJKLMNOPQRSTUVWXYZ"[c as int - 65] == c;
  }

  /** What is printed: the modifiers in one order, and one name per key. */
  lemma {:induction false} ModifiersPrint(key: Key)
    ensures Display(Binding(Modifiers(true, true, true, true), key)) == "ctrl+shift+alt+cmd+" + Display(Binding(NONE, key))
  {}

  lemma {:induction false} KeysPrint(key: Key)
    ensures Display(Binding(NONE, key)) ==
            match key
            case Char(c) => [c]
            case Escape => "escape"
            case Tab => "tab"
            case Enter => "enter"
            case Backspace => "backspace"
            case Delete => "delete"
            case Home => "home"
            case End => "end"
            case PageUp => "pageup"
            case PageDown => "pagedown"
            case ArrowUp => "arrowup"
            case ArrowDown => "arrowdown"
            case ArrowLeft => "arrowleft"
            case ArrowRight => "arrowright"
            case Space => "space"
            case F(n) => "f" + Decimal(n)
  {}

  /** The modifier loop stops at the first token that names no flag or one already named. */
  lemma {:induction false} LoopStopsAt(input: string, tokens: seq<string>, m: Modifiers) returns (i: nat)
    requires FoldFlags(input, tokens, m).Failure?
    ensures i < |tokens|
    ensures var flags, error := Flags(tokens), FoldFlags(input, tokens, m).error;
            && DistinctFlags(flags[..i]) && (forall f: Flag :: Some(f) in flags[..i] ==> !IsSet(f, m))
            && match flags[i]
               case None => error == UnknownModifier(input, tokens[i])
               case Some(flag) => error == DuplicateModifier(input, flag) && (Some(flag) in flags[..i] || IsSet(flag, m))
    decreases |tokens|
  {
    var flags := Flags(tokens);
    if flags[0].None? || IsSet(flags[0].value, m) {
      i := 0;
    } else {
      var j := LoopStopsAt(input, tokens[1..], SetFlag(flags[0].value, m));
      i := j + 1;
      var rest := Flags(tokens[1..]);
      assert flags == [flags[0]] + rest && flags[..i] == [flags[0]] + rest[..j];
      assert IsSet(flags[0].value, SetFlag(flags[0].value, m));
      DistinctCons(flags[0], rest[..j]);
    }
  }

  ghost predicate NamesKey(token: string) {
    exists key: Key :: Spells(token, key)
  }

  lemma KeysAreSpelled(token: string)
    ensures ParseKey(token).Some? <==> NamesKey(token)
  {
    if ParseKey(token).Some? {
      KeySpellings(token, ParseKey(token).value);
    }
    if NamesKey(token) {
      var key: Key :| Spells(token, key);
      KeySpellings(token, key);
    }
  }

  /** The first modifier token that names none, or one named before it, is reported. */
  ghost predicate ModifierRejected(input: string, tokens: seq<string>, error: ParseError) {
    exists i: nat :: i < |tokens| && RejectedAt(input, tokens, error, i)
  }

  ghost predicate RejectedAt(input: string, tokens: seq<string>, error: ParseError, i: nat)
    requires i < |tokens|
  {
    && DistinctFlags(Flags(tokens[..i]))
    && match FlagOf(Lower(tokens[i]))
       case None => error == UnknownModifier(input, tokens[i])
       case Some(flag) => error == DuplicateModifier(input, flag) && Some(flag) in Flags(tokens[..i])
  }

  lemma LoopRejects(input: string, tokens: seq<string>)
    ensures FoldFlags(input, tokens, NONE).Failure? ==>
              ModifierRejected(input, tokens, FoldFlags(input, tokens, NONE).error)
  {
    if FoldFlags(input, tokens, NONE).Failure? {
      var i := LoopStopsAt(input, tokens, NONE);
      assert Flags(tokens)[..i] == Flags(tokens[..i]);
      assert RejectedAt(input, tokens, FoldFlags(input, tokens, NONE).error, i);
    }
  }

  ghost predicate IsModifier(token: string) {
    token in ["ctrl", "control", "shift", "alt", "option", "cmd", "meta", "super"]
  }

  lemma AnyModifier(token: string)
    ensures FlagOf(token).Some? <==> IsModifier(token)
  {
    ModifierSpellings(token);
  }

  /** What the input's tokens, the last one in lower case, are rejected with. */
  ghost predicate RejectedWith(input: string, tokens: seq<string>, last: string, error: ParseError)
    requires tokens != []
  {
    if Blank(input) then error == Empty
    else if "" in tokens then error == EmptyToken(input)
    else if IsModifier(last) then error == MissingKey(input)
    else if !NamesKey(last) then error == UnknownKey(input, tokens[|tokens| - 1])
    else ModifierRejected(input, tokens[..|tokens| - 1], error)
  }

  /** The same with the parser's own tests answered. */
  predicate FailsWith(
    input: string, tokens: seq<string>, modifier: bool, key: bool, folded: Result<Modifiers, ParseError>, error: ParseError)
    requires tokens != []
  {
    if Trim(input) == "" then error == Empty
    else if "" in tokens then error == EmptyToken(input)
    else if modifier then error == MissingKey(input)
    else if !key then error == UnknownKey(input, tokens[|tokens| - 1])
    else folded == Failure(error)
  }

  lemma ParseFails(input: string)
    requires Parse(input).Failure?
    ensures var tokens := Tokens(input);
            var last := Lower(tokens[|tokens| - 1]);
            FailsWith(input, tokens, FlagOf(last).Some?, ParseKey(last).Some?,
                      FoldFlags(input, tokens[..|tokens| - 1], NONE), Parse(input).error)
  {}

  lemma FailureIsRejection(
    input: string, tokens: seq<string>, last: string, modifier: bool, key: bool,
    folded: Result<Modifiers, ParseError>, error: ParseError)
    requires tokens != [] && modifier == IsModifier(last) && key == NamesKey(last)
    requires folded.Failure? ==> ModifierRejected(input, tokens[..|tokens| - 1], folded.error)
    requires FailsWith(input, tokens, modifier, key, folded, error)
    ensures RejectedWith(input, tokens, last, error)
  {
    BlankTrims(input);
  }

  lemma TokensRejected(input: string, tokens: seq<string>, last: string, error: ParseError)
    requires tokens != []
    requires FailsWith(input, tokens, FlagOf(last).Some?, ParseKey(last).Some?,
                       FoldFlags(input, tokens[..|tokens| - 1], NONE), error)
    ensures RejectedWith(input, tokens, last, error)
  {
    AnyModifier(last);
    KeysAreSpelled(last);
    LoopRejects(input, tokens[..|tokens| - 1]);
    FailureIsRejection(input, tokens, last, FlagOf(last).Some?, ParseKey(last).Some?,
                       FoldFlags(input, tokens[..|tokens| - 1], NONE), error);
  }

  /** The error of every rejected input: blank; a blank token; a modifier in the key's
      place; no key there; else what the first bad modifier token is rejected with. */
  lemma {:induction false} RejectsWith(input: string)
    requires Parse(input).Failure?
    ensures var tokens := Tokens(input);
            RejectedWith(input, tokens, Lower(tokens[|tokens| - 1]), Parse(input).error)
  {
    ParseFails(input);
    TokensRejected(input, Tokens(input), Lower(Tokens(input)[|Tokens(input)| - 1]), Parse(input).error);
  }

  // ------------------------------------------------------------------
  // Writing tokens out, with any blanks around them.
  // ------------------------------------------------------------------

  /** A token as it comes out of the tokeniser. */
  predicate Tidy(token: string) {
    token != "" && '+' !in token && !IsWhitespace(token[0]) && !IsWhitespace(token[|token| - 1])
  }

  function Join(segments: seq<string>): string
    requires segments != []
  {
    if |segments| == 1 then segments[0] else segments[0] + "+" + Join(segments[1..])
  }

  lemma SplitFirst(head: string, tail: string)
    requires '+' !in head
    ensures Split(head) == [head]
    ensures Split(head + "+" + tail) == [head] + Split(tail)
  {
    var s := head + "+" + tail;
    assert s[|head|] == '+' && forall k :: 0 <= k < |head| ==> s[k] == head[k];
    assert Plus(s) == |head| && Plus(head) == |head|;
    assert s[..|head|] == head && s[|head| + 1..] == tail;
  }

  lemma {:induction false} SplitJoins(segments: seq<string>)
    requires segments != [] && forall s <- segments :: '+' !in s
    ensures Split(Join(segments)) == segments
    decreases |segments|
  {
    assert segments[0] in segments;
    if |segments| == 1 {
      SplitFirst(segments[0], "");
    } else {
      var head, rest := segments[0], segments[1..];
      assert forall s <- rest :: s in segments;
      SplitJoins(rest);
      SplitFirst(head, Join(rest));
      assert Join(segments) == head + "+" + Join(rest) && segments == [head] + rest;
    }
  }

  /** Each token between its own blanks. */
  function Padded(tokens: seq<string>, left: seq<string>, right: seq<string>): (r: seq<string>)
    requires |tokens| == |left| == |right|
    ensures |r| == |tokens|
  {
    seq(|tokens|, i requires 0 <= i < |tokens| => left[i] + tokens[i] + right[i])
  }

  predicate AllBlank(blanks: seq<string>) {
    forall i :: 0 <= i < |blanks| ==> Blank(blanks[i])
  }

  lemma BlankHasNoPlus(s: string)
    requires Blank(s)
    ensures '+' !in s
  {
    assert !IsWhitespace('+');
  }

  lemma {:induction false} SplitPrepends(left: string, text: string)
    requires '+' !in left
    ensures Split(left + text) == Prepended(left, Split(text))
  {
    var i := Plus(text);
    var head := text[..i];
    assert '+' !in left + head;
    if i == |text| {
      assert left + text == left + head;
      SplitFirst(left + head, "");
    } else {
      var tail := text[i + 1..];
      assert text == head + "+" + tail && left + text == left + head + "+" + tail;
      SplitFirst(left + head, tail);
    }
  }

  lemma {:induction false} SplitAppends(text: string, right: string)
    requires '+' !in right
    ensures Split(text + right) == Appended(Split(text), right)
    decreases |text|
  {
    var i := Plus(text);
    var head := text[..i];
    assert '+' !in head;
    if i == |text| {
      assert head == text;
      SplitFirst(text + right, "");
    } else {
      var tail := text[i + 1..];
      assert text == head + "+" + tail && text + right == head + "+" + (tail + right);
      SplitFirst(head, tail);
      SplitFirst(head, tail + right);
      SplitAppends(tail, right);
      AppendedLater(head, Split(tail), right);
    }
  }

  /** The parts with `right` behind the last one. */
  function Appended(parts: seq<string>, right: string): seq<string>
    requires parts != []
  {
    parts[..|parts| - 1] + [parts[|parts| - 1] + right]
  }

  lemma AppendedLater(head: string, parts: seq<string>, right: string)
    requires parts != []
    ensures Appended([head] + parts, right) == [head] + Appended(parts, right)
  {
    assert ([head] + parts)[..|parts|] == [head] + parts[..|parts| - 1];
  }

  /** The parts with `left` ahead of the first one. */
  function Prepended(left: string, parts: seq<string>): seq<string>
    requires parts != []
  {
    [left + parts[0]] + parts[1..]
  }

  lemma FirstDiffers(a: string, b: string, after: seq<string>)
    requires Trim(a) == Trim(b)
    ensures TrimAll([a] + after) == TrimAll([b] + after)
  {}

  lemma LastDiffers(before: seq<string>, a: string, b: string)
    requires Trim(a) == Trim(b)
    ensures TrimAll(before + [a]) == TrimAll(before + [b])
  {}

  lemma {:induction false} FrontTrimsAway(left: string, parts: seq<string>)
    requires parts != [] && Blank(left)
    ensures TrimAll(Prepended(left, parts)) == TrimAll(parts)
  {
    TrimIgnoresLeft(left, parts[0]);
    FirstDiffers(left + parts[0], parts[0], parts[1..]);
    assert [parts[0]] + parts[1..] == parts;
  }

  lemma {:induction false} EndTrimsAway(parts: seq<string>, right: string)
    requires parts != [] && Blank(right)
    ensures TrimAll(Appended(parts, right)) == TrimAll(parts)
  {
    var init, last := parts[..|parts| - 1], parts[|parts| - 1];
    TrimIgnoresRight(last, right);
    LastDiffers(init, last + right, last);
    assert init + [last] == parts;
  }

  /** Blanks at the ends change no trimmed segment. */
  lemma {:induction false} SegmentsIgnoreBlanks(left: string, text: string, right: string)
    requires Blank(left) && Blank(right)
    ensures TrimAll(Split(left + text + right)) == TrimAll(Split(text))
  {
    BlankHasNoPlus(left);
    BlankHasNoPlus(right);
    SplitPrepends(left, text);
    SplitAppends(left + text, right);
    FrontTrimsAway(left, Split(text));
    EndTrimsAway(Split(left + text), right);
  }

  lemma {:induction false} TokensTrimEach(input: string)
    ensures Tokens(input) == TrimAll(Split(input))
  {
    var left, right := TrimLeavesTheMiddle(input);
    SegmentsIgnoreBlanks(left, Trim(input), right);
  }

  /** Surrounding whitespace is immaterial: whatever blanks stand around tokens,
      blank tokens included, the tokeniser gives the tokens back. */
  lemma {:induction false} TokensOfPadded(tokens: seq<string>, left: seq<string>, right: seq<string>)
    requires |tokens| == |left| == |right| > 0 && AllBlank(left) && AllBlank(right)
    requires forall t <- tokens :: '+' !in t && Trim(t) == t
    ensures Tokens(Join(Padded(tokens, left, right))) == tokens
  {
    var segments := Padded(tokens, left, right);
    forall i | 0 <= i < |tokens| ensures '+' !in segments[i] && Trim(segments[i]) == tokens[i] {
      assert tokens[i] in tokens;
      BlankHasNoPlus(left[i]);
      BlankHasNoPlus(right[i]);
      TrimIgnoresBlanks(left[i], tokens[i], right[i]);
    }
    SplitJoins(segments);
    TokensTrimEach(Join(segments));
  }

  // ------------------------------------------------------------------
  // Round trip.
  // ------------------------------------------------------------------

  /** The only way a binding can fail to be canonical is its literal character. */
  predicate Canonical(b: Binding) {
    b.key.Char? ==> b.key.c != '+' && !IsWhitespace(b.key.c) && LowerChar(b.key.c) == b.key.c
  }

  function Opt<T>(on: bool, x: T): seq<T> {
    if on then [x] else []
  }

  function ModifierTokens(m: Modifiers): seq<string> {
    Opt(m.ctrl, "ctrl") + (Opt(m.shift, "shift") + (Opt(m.alt, "alt") + Opt(m.cmd, "cmd")))
  }

  predicate LowerCase(s: string) {
    forall c <- s :: LowerChar(c) == c
  }

  lemma LowerIsIdentity(s: string)
    requires LowerCase(s)
    ensures Lower(s) == s
  {
    assert forall i :: 0 <= i < |s| ==> s[i] in s;
  }

  lemma DecimalParses(n: nat)
    requires 1 <= n <= 24
    ensures ParseU8(Decimal(n)) == Some(n)
    ensures AllDigits(Decimal(n)) && Decimal(n) != ""
  {
    DecimalIsItsNumber(n);
    assert Decimal(n)[0] in Decimal(n);
  }

  /** The key token of a canonical key is tidy, lower case, and parses back. */
  ghost predicate TokenParses(key: Key) {
    var token := KeyToken(key);
    Tidy(token) && Lower(token) == token && ParseKey(token) == Some(key) && FlagOf(token) == None
  }

  lemma FunctionTokenIsTidy(digits: string)
    requires AllDigits(digits) && digits != ""
    ensures Tidy("f" + digits) && LowerCase("f" + digits)
  {
    var token := "f" + digits;
    assert forall c <- token :: c == 'f' || c in digits;
    assert token[|token| - 1] == digits[|digits| - 1] && digits[|digits| - 1] in digits;
  }

  lemma FunctionTokenParses(n: FunctionNumber)
    ensures TokenParses(F(n))
  {
    var digits := Decimal(n);
    DecimalParses(n);
    FunctionTokenIsTidy(digits);
    LowerIsIdentity("f" + digits);
    NotAModifier(digits);
    assert ("f" + digits)[1..] == digits;
  }

  lemma NotAModifier(rest: string)
    ensures FlagOf("f" + rest) == None
  {
    assert ("f" + rest)[0] == 'f';
  }

  lemma NamedTokenParses(key: Key)
    requires !key.F? && !key.Char?
    ensures TokenParses(key)
  {
    if key.Escape? || key.Tab? || key.Enter? {
      EscapeTokenParses(key);
    } else if key.Backspace? || key.Delete? {
      EditingTokenParses(key);
    } else if key.Home? || key.End? || key.Space? {
      HomeTokenParses(key);
    } else if key.PageUp? || key.PageDown? {
      PageTokenParses(key);
    } else if key.ArrowUp? || key.ArrowDown? {
      VerticalTokenParses(key);
    } else if key.ArrowLeft? {
      LeftTokenParses();
    } else {
      RightTokenParses();
    }
  }

  lemma EscapeTokenParses(key: Key)
    requires key.Escape? || key.Tab? || key.Enter?
    ensures TokenParses(key)
  {
    LowerIsIdentity(KeyToken(key));
  }

  lemma EditingTokenParses(key: Key)
    requires key.Backspace? || key.Delete?
    ensures TokenParses(key)
  {
    LowerIsIdentity(KeyToken(key));
  }

  lemma HomeTokenParses(key: Key)
    requires key.Home? || key.End? || key.Space?
    ensures TokenParses(key)
  {
    LowerIsIdentity(KeyToken(key));
  }

  lemma PageTokenParses(key: Key)
    requires key.PageUp? || key.PageDown?
    ensures TokenParses(key)
  {
    LowerIsIdentity(KeyToken(key));
  }

  lemma VerticalTokenParses(key: Key)
    requires key.ArrowUp? || key.ArrowDown?
    ensures TokenParses(key)
  {
    LowerIsIdentity(KeyToken(key));
  }

  lemma LeftTokenParses()
    ensures TokenParses(ArrowLeft)
  {
    LowerIsIdentity(KeyToken(ArrowLeft));
  }

  lemma RightTokenParses()
    ensures TokenParses(ArrowRight)
  {
    LowerIsIdentity(KeyToken(ArrowRight));
  }

  lemma CharTokenParses(c: char)
    requires c != '+' && !IsWhitespace(c) && LowerChar(c) == c
    ensures TokenParses(Char(c))
  {
    LowerIsIdentity([c]);
    assert [c][1..] == "";
  }

  lemma KeyTokenParses(key: Key)
    requires Canonical(Binding(NONE, key))
    ensures TokenParses(key)
  {
    match key {
      case Char(c) => CharTokenParses(c);
      case F(n) => FunctionTokenParses(n);
      case _ => NamedTokenParses(key);
    }
  }

  lemma JoinHeld(on: bool, head: string, rest: seq<string>)
    requires rest != []
    ensures Join(Opt(on, head) + rest) == Held(on, head + "+") + Join(rest)
  {
    if on {
      assert ([head] + rest)[1..] == rest;
    } else {
      assert [] + rest == rest && "" + Join(rest) == Join(rest);
    }
  }

  lemma NestRight(a: seq<string>, b: seq<string>, c: seq<string>, d: seq<string>, e: seq<string>)
    ensures a + (b + (c + d)) + e == a + (b + (c + (d + e)))
  {}

  lemma DisplayJoins(b: Binding)
    ensures Display(b) == Join(ModifierTokens(b.modifiers) + [KeyToken(b.key)])
  {
    var m, last := b.modifiers, [KeyToken(b.key)];
    var cmd := Opt(m.cmd, "cmd") + last;
    var alt := Opt(m.alt, "alt") + cmd;
    var shift := Opt(m.shift, "shift") + alt;
    NestRight(Opt(m.ctrl, "ctrl"), Opt(m.shift, "shift"), Opt(m.alt, "alt"), Opt(m.cmd, "cmd"), last);
    JoinHeld(m.cmd, "cmd", last);
    JoinHeld(m.alt, "alt", cmd);
    JoinHeld(m.shift, "shift", alt);
    JoinHeld(m.ctrl, "ctrl", shift);
    assert "ctrl" + "+" == "ctrl+" && "shift" + "+" == "shift+" && "alt" + "+" == "alt+" && "cmd" + "+" == "cmd+";
  }

  lemma FlagsOfHeld(on: bool, token: string, flag: Flag, rest: seq<string>)
    requires LowerCase(token) && FlagOf(token) == Some(flag)
    requires DistinctFlags(Flags(rest)) && Some(flag) !in Flags(rest)
    ensures var flags := Flags(Opt(on, token) + rest);
            && DistinctFlags(flags)
            && forall f: Flag :: Some(f) in flags <==> Some(f) in Flags(rest) || (on && f == flag)
  {
    if on {
      LowerIsIdentity(token);
      assert Flags([token] + rest) == [Some(flag)] + Flags(rest);
      DistinctCons(Some(flag), Flags(rest));
    } else {
      assert [] + rest == rest;
    }
  }

  lemma ModifierTokensMean(m: Modifiers)
    ensures var flags := Flags(ModifierTokens(m));
            DistinctFlags(flags) && ModifiersOf(flags) == m
  {
    var none: seq<string> := [];
    var cmd := Opt(m.cmd, "cmd");
    assert cmd + none == cmd;
    FlagsOfHeld(m.cmd, "cmd", Cmd, none);
    FlagsOfHeld(m.alt, "alt", Alt, cmd);
    FlagsOfHeld(m.shift, "shift", Shift, Opt(m.alt, "alt") + cmd);
    FlagsOfHeld(m.ctrl, "ctrl", Ctrl, Opt(m.shift, "shift") + (Opt(m.alt, "alt") + cmd));
  }

  lemma TokensOfDisplay(b: Binding)
    requires Tidy(KeyToken(b.key))
    ensures Tokens(Display(b)) == ModifierTokens(b.modifiers) + [KeyToken(b.key)]
  {
    var tokens := ModifierTokens(b.modifiers) + [KeyToken(b.key)];
    DisplayJoins(b);
    ModifierTokensTidy(b.modifiers);
    TokensOfJoined(tokens);
  }

  lemma ModifierTokensTidy(m: Modifiers)
    ensures forall t <- ModifierTokens(m) :: Tidy(t)
  {
    assert Tidy("ctrl") && Tidy("shift") && Tidy("alt") && Tidy("cmd");
    assert forall t <- ModifierTokens(m) :: t in ["ctrl", "shift", "alt", "cmd"];
  }

  lemma TokensOfJoined(tokens: seq<string>)
    requires tokens != [] && forall t <- tokens :: Tidy(t)
    ensures Tokens(Join(tokens)) == tokens
  {
    var blanks := seq(|tokens|, _ => "");
    assert forall i :: 0 <= i < |tokens| ==> blanks[i] + tokens[i] + blanks[i] == tokens[i];
    assert Padded(tokens, blanks, blanks) == tokens;
    forall t <- tokens ensures Trim(t) == t {
      TrimRemovesBlanks("", t, "");
      assert "" + t + "" == t;
    }
    TokensOfPadded(tokens, blanks, blanks);
  }

  lemma {:induction false} TokensDecide(input: string, modifiers: seq<string>, last: string, b: Binding)
    requires Tokens(input) == modifiers + [last] && "" !in Tokens(input)
    requires DistinctFlags(Flags(modifiers)) && ModifiersOf(Flags(modifiers)) == b.modifiers
    requires ParseKey(Lower(last)) == Some(b.key) && FlagOf(Lower(last)).None?
    ensures Parse(input) == Success(b)
  {
    var tokens := modifiers + [last];
    assert tokens[..|tokens| - 1] == modifiers && tokens[|tokens| - 1] == last;
    AcceptsExactly(input);
  }

  lemma NoBlankToken(m: Modifiers, token: string)
    requires token != ""
    ensures "" !in ModifierTokens(m) + [token]
  {
    ModifierTokensTidy(m);
  }

  /** What a printed binding parses to is decided by its key token. */
  lemma {:induction false} DisplayDecides(shown: Binding, meant: Binding)
    requires shown.modifiers == meant.modifiers && Tidy(KeyToken(shown.key))
    requires var token := Lower(KeyToken(shown.key)); ParseKey(token) == Some(meant.key) && FlagOf(token).None?
    ensures Parse(Display(shown)) == Success(meant)
  {
    TokensOfDisplay(shown);
    NoBlankToken(shown.modifiers, KeyToken(shown.key));
    ModifierTokensMean(shown.modifiers);
    TokensDecide(Display(shown), ModifierTokens(shown.modifiers), KeyToken(shown.key), meant);
  }

  /** Printing a canonical binding and parsing the text returns the binding. */
  lemma {:induction false} PrintedParses(b: Binding)
    requires Canonical(b)
    ensures Parse(Display(b)) == Success(b)
  {
    KeyTokenParses(b.key);
    DisplayDecides(b, b);
  }

  lemma {:induction false} PlusFree(s: string)
    ensures forall t <- Split(s) :: '+' !in t
    decreases |s|
  {
    var i := Plus(s);
    if i < |s| {
      PlusFree(s[i + 1..]);
    }
  }

  lemma TrimmedIsTidy(s: string)
    requires '+' !in s && Trim(s) != ""
    ensures Tidy(Trim(s))
  {
    TrimmedEnds(s);
    assert forall c <- Trim(s) :: c in s;
  }

  lemma TokensAreTidy(input: string)
    requires "" !in Tokens(input)
    ensures forall t <- Tokens(input) :: Tidy(t)
  {
    var segments := Split(Trim(input));
    PlusFree(Trim(input));
    forall i | 0 <= i < |segments| ensures Tidy(Trim(segments[i])) {
      assert segments[i] in segments;
      assert Tokens(input)[i] in Tokens(input);
      TrimmedIsTidy(segments[i]);
    }
  }

  /** Whatever the parser accepts is canonical. */
  lemma {:induction false} ParsedIsCanonical(input: string)
    requires Parse(input).Success?
    ensures Canonical(Parse(input).value)
  {
    AcceptsExactly(input);
    TokensAreTidy(input);
    var token := Tokens(input)[|Tokens(input)| - 1];
    assert Tidy(token);
    LiteralIsCanonical(token);
  }

  lemma LiteralIsCanonical(token: string)
    requires Tidy(token)
    ensures var key := ParseKey(Lower(token));
            key.Some? ==> Canonical(Binding(NONE, key.value))
  {
    var key := ParseKey(Lower(token));
    if key.Some? && key.value.Char? {
      assert key.value.c == LowerChar(token[0]) && token[0] in token;
    }
  }

  /** Printing and parsing again returns the same binding exactly when it is
      canonical - a directly built upper-case, blank or `+` character breaks it. */
  lemma {:induction false} RoundTripsExactly(b: Binding)
    ensures Parse(Display(b)) == Success(b) <==> Canonical(b)
  {
    if Canonical(b) {
      PrintedParses(b);
    } else if Parse(Display(b)).Success? {
      ParsedIsCanonical(Display(b));
    }
  }

  /** A directly built upper-case letter comes back as the lower-case one. */
  lemma {:induction false} UpperCaseIsFolded(m: Modifiers, c: char)
    requires 'A' <= c <= 'Z'
    ensures Parse(Display(Binding(m, Char(c)))) == Success(Binding(m, Char(LowerChar(c))))
    ensures Parse(Display(Binding(m, Char(c)))) != Success(Binding(m, Char(c)))
  {
    LetterParses(c);
    DisplayDecides(Binding(m, Char(c)), Binding(m, Char(LowerChar(c))));
  }

  lemma LetterParses(c: char)
    requires 'A' <= c <= 'Z'
    ensures Tidy([c]) && ParseKey(Lower([c])) == Some(Char(LowerChar(c))) && FlagOf(Lower([c])).None?
  {
    CharTokenParses(LowerChar(c));
    assert Lower([c]) == [LowerChar(c)];
  }

  /** For every accepted string, printing the binding and parsing again returns
      it, so accepted strings mean the same exactly when they print the same. */
  lemma {:induction false} CanonicalStringsDecide(a: string, b: string)
    requires Parse(a).Success? && Parse(b).Success?
    ensures Parse(Display(Parse(a).value)) == Parse(a)
    ensures Parse(a) == Parse(b) <==> Display(Parse(a).value) == Display(Parse(b).value)
  {
    ParsedIsCanonical(a);
    ParsedIsCanonical(b);
    PrintedParses(Parse(a).value);
    PrintedParses(Parse(b).value);
  }
}
