/** The global hotkey manager (`SimpleHotkeyManager`): the display strings
    of the two shortcuts and the table of handlers bound to them.

    The shortcut library's storage of the user's shortcuts is an input: each
    update receives the shortcut currently stored, if any. Binding a handler
    replaces the one bound to the same slot; the table holds what is bound
    now, and `installs` lists every binding in the order made. */
module Hotkeys {
  import opened Models
  import opened Recording

  const NoHotkeySet: string := "None"

  // ---------------------------------------------------------------------
  // Keys and modifiers

  type DigitValue = d: int | 0 <= d < 10
  type LetterIndex = i: int | 0 <= i < 26
  type FunctionKeyNumber = n: int | 1 <= n <= 20 witness 1

  /** The keys a shortcut can use. `OtherKey` stands for every key the
      formatter does not name (keypad keys, page keys, media keys, ...). */
  datatype Key =
    | Space | Tab | Return | Escape | Delete | DeleteForward
    | LeftArrow | RightArrow | UpArrow | DownArrow
    | Semicolon | Comma | Period | Slash | Minus | Equal
    | LeftBracket | RightBracket | Backslash | Quote
    | Digit(d: DigitValue)
    | Letter(index: LetterIndex)
    | FunctionKey(n: FunctionKeyNumber)
    | OtherKey(code: int)

  /** The modifier flags a shortcut can carry. */
  datatype ModifierFlag = ControlFlag | OptionFlag | ShiftFlag | CommandFlag
                        | CapsLockFlag | FunctionFlag | NumericPadFlag

  datatype Shortcut = Shortcut(key: Option<Key>, modifiers: set<ModifierFlag>)

  const ControlSymbol: char := '\U{2303}'
  const OptionSymbol: char := '\U{2325}'
  const ShiftSymbol: char := '\U{21E7}'
  const CommandSymbol: char := '\U{2318}'

  predicate IsModifierSymbol(c: char) {
    c == ControlSymbol || c == OptionSymbol || c == ShiftSymbol || c == CommandSymbol
  }

  /** The position of a symbol in the display order. */
  function SymbolRank(c: char): nat
    requires IsModifierSymbol(c)
  {
    if c == ControlSymbol then 0 else if c == OptionSymbol then 1 else if c == ShiftSymbol then 2 else 3
  }

  /** The keys the formatter names: all but the keys it does not list and
      the function keys above F12. */
  predicate Named(k: Key) {
    !k.OtherKey? && !(k.FunctionKey? && k.n > 12)
  }

  const Unknown: string := "(unknown)"

  function DigitChar(d: DigitValue): char {
    ('0' as int + d) as char
  }

  /** `simpleKeyToDisplayString`: letters as their capital, digits as the
      digit, F1 to F12 by name, the special keys by fixed labels, anything
      else as "(unknown)". A label is never empty and never starts with a
      modifier symbol. */
  function KeyToDisplayString(k: Key): (r: string)
    ensures r != [] && !IsModifierSymbol(r[0])
    ensures !Named(k) ==> r == Unknown
  {
    match k
    case Space => "Space"
    case Tab => "Tab"
    case Return => "Return"
    case Escape => "Esc"
    case Delete => "Delete"
    case DeleteForward => "Del"
    case LeftArrow => "\U{2190}"
    case RightArrow => "\U{2192}"
    case UpArrow => "\U{2191}"
    case DownArrow => "\U{2193}"
    case Semicolon => ";"
    case Comma => ","
    case Period => "."
    case Slash => "/"
    case Minus => "-"
    case Equal => "="
    case LeftBracket => "["
    case RightBracket => "]"
    case Backslash => "\\"
    case Quote => "'"
    case Digit(d) => [DigitChar(d)]
    case Letter(i) => [('A' as int + i) as char]
    case FunctionKey(n) =>
      if n < 10 then ['F', DigitChar(n)]
      else if n <= 12 then ['F', '1', DigitChar(n - 10)]
      else Unknown
    case OtherKey(_) => Unknown
  }

  /** The number a string of decimal digits spells. */
  function DecimalValue(ds: string): int {
    if ds == [] then 0
    else DecimalValue(ds[..|ds| - 1]) * 10 + (ds[|ds| - 1] as int - '0' as int)
  }

  /** Letters show as their capital, digits as their digit, and F1 to F12 as
      "F" followed by their number in decimal without a leading zero. */
  lemma KeyLabelShapes(k: Key)
    ensures var r := KeyToDisplayString(k);
      && (k.Letter? ==> |r| == 1 && 'A' <= r[0] <= 'Z' && r[0] as int - 'A' as int == k.index)
      && (k.Digit? ==> |r| == 1 && '0' <= r[0] <= '9' && r[0] as int - '0' as int == k.d)
      && (k.FunctionKey? && k.n <= 12 ==>
            && 2 <= |r| <= 3 && r[0] == 'F' && r[1] != '0'
            && (forall i :: 1 <= i < |r| ==> '0' <= r[i] <= '9')
            && DecimalValue(r[1..]) == k.n)
  {
    if k.FunctionKey? && k.n <= 12 {
      var r := KeyToDisplayString(k);
      if k.n < 10 {
        assert r[1..] == [DigitChar(k.n)];
        assert r[1..][..0] == [];
      } else {
        assert r[1..] == ['1', DigitChar(k.n - 10)];
        assert r[1..][..1] == ['1'];
        assert ['1'][..0] == [];
      }
    }
  }

  function ParseKeyChar(c: char): Option<Key> {
    if c == '\U{2190}' then Some(LeftArrow)
    else if c == '\U{2192}' then Some(RightArrow)
    else if c == '\U{2191}' then Some(UpArrow)
    else if c == '\U{2193}' then Some(DownArrow)
    else if c == ';' then Some(Semicolon)
    else if c == ',' then Some(Comma)
    else if c == '.' then Some(Period)
    else if c == '/' then Some(Slash)
    else if c == '-' then Some(Minus)
    else if c == '=' then Some(Equal)
    else if c == '[' then Some(LeftBracket)
    else if c == ']' then Some(RightBracket)
    else if c == '\\' then Some(Backslash)
    else if c == '\'' then Some(Quote)
    else if '0' <= c <= '9' then Some(Digit(c as int - '0' as int))
    else if 'A' <= c <= 'Z' then Some(Letter(c as int - 'A' as int))
    else None
  }

  /** Reads a key label back. */
  function ParseKey(s: string): Option<Key> {
    if |s| == 1 then ParseKeyChar(s[0])
    else if s == "Space" then Some(Space)
    else if s == "Tab" then Some(Tab)
    else if s == "Return" then Some(Return)
    else if s == "Esc" then Some(Escape)
    else if s == "Delete" then Some(Delete)
    else if s == "Del" then Some(DeleteForward)
    else if |s| == 2 && s[0] == 'F' && '1' <= s[1] <= '9' then Some(FunctionKey(s[1] as int - '0' as int))
    else if |s| == 3 && s[0] == 'F' && s[1] == '1' && '0' <= s[2] <= '2' then
      Some(FunctionKey(10 + (s[2] as int - '0' as int)))
    else None
  }

  /** Every named key's label reads back as that key. */
  lemma KeyLabelRoundTrip(k: Key)
    requires Named(k)
    ensures ParseKey(KeyToDisplayString(k)) == Some(k)
  {
    match k
    case FunctionKey(n) =>
      if n >= 10 {
        assert KeyToDisplayString(k) == ['F', '1', DigitChar(n - 10)];
      }
    case Digit(_) =>
    case Letter(_) =>
    case Space => WordLabelRoundTrip(k);
    case Tab => WordLabelRoundTrip(k);
    case Return => WordLabelRoundTrip(k);
    case Escape => WordLabelRoundTrip(k);
    case Delete => WordLabelRoundTrip(k);
    case DeleteForward => WordLabelRoundTrip(k);
    case _ => SymbolLabelRoundTrip(k);
  }

  lemma WordLabelRoundTrip(k: Key)
    requires k.Space? || k.Tab? || k.Return? || k.Escape? || k.Delete? || k.DeleteForward?
    ensures ParseKey(KeyToDisplayString(k)) == Some(k)
  {
  }

  lemma SymbolLabelRoundTrip(k: Key)
    requires Named(k) && !k.FunctionKey? && !k.Digit? && !k.Letter?
    requires !(k.Space? || k.Tab? || k.Return? || k.Escape? || k.Delete? || k.DeleteForward?)
    ensures ParseKey(KeyToDisplayString(k)) == Some(k)
  {
  }

  /** The label "(unknown)" names no key. */
  lemma UnknownLabelNamesNoKey()
    ensures ParseKey(Unknown) == None
  {
  }

  /** The labels of the named keys are pairwise distinct, and none of them
      is "(unknown)". */
  lemma KeyLabelsDistinct(k1: Key, k2: Key)
    requires Named(k1) && Named(k2)
    ensures KeyToDisplayString(k1) == KeyToDisplayString(k2) ==> k1 == k2
    ensures KeyToDisplayString(k1) != Unknown
  {
    KeyLabelRoundTrip(k1);
    KeyLabelRoundTrip(k2);
    UnknownLabelNamesNoKey();
  }

  /** The symbols of the control, option, shift and command flags, each at
      most once and in that order; other flags show nothing. */
  function ModifierSymbols(mods: set<ModifierFlag>): string {
    (if ControlFlag in mods then [ControlSymbol] else [])
    + (if OptionFlag in mods then [OptionSymbol] else [])
    + (if ShiftFlag in mods then [ShiftSymbol] else [])
    + (if CommandFlag in mods then [CommandSymbol] else [])
  }

  /** The modifier part holds only modifier symbols, in strictly increasing
      display order (so each at most once), and shows a symbol exactly when
      its flag is set. */
  lemma ModifierSymbolsFacts(mods: set<ModifierFlag>)
    ensures var r := ModifierSymbols(mods);
      && (forall i :: 0 <= i < |r| ==> IsModifierSymbol(r[i]))
      && (forall i, j :: 0 <= i < j < |r| ==> SymbolRank(r[i]) < SymbolRank(r[j]))
      && (ControlSymbol in r <==> ControlFlag in mods) && (OptionSymbol in r <==> OptionFlag in mods)
      && (ShiftSymbol in r <==> ShiftFlag in mods) && (CommandSymbol in r <==> CommandFlag in mods)
  {
    ModifierSymbolsRanked(mods);
    ModifierSymbolsShowFlags(mods);
  }

  lemma ModifierSymbolsRanked(mods: set<ModifierFlag>)
    ensures RankedBelow(ModifierSymbols(mods), 4)
  {
    var c: string := if ControlFlag in mods then [ControlSymbol] else [];
    assert RankedBelow(c, 1);
    var o := PushSymbol(c, OptionFlag in mods, OptionSymbol, 2);
    var sh := PushSymbol(o, ShiftFlag in mods, ShiftSymbol, 3);
    var cm := PushSymbol(sh, CommandFlag in mods, CommandSymbol, 4);
  }

  /** `r` holds only modifier symbols, in strictly increasing display order,
      each ranked below `bound`. */
  predicate RankedBelow(r: string, bound: nat) {
    && (forall i :: 0 <= i < |r| ==> IsModifierSymbol(r[i]) && SymbolRank(r[i]) < bound)
    && (forall i, j :: 0 <= i < j < |r| ==> SymbolRank(r[i]) < SymbolRank(r[j]))
  }

  /** Appending symbol `c`, when `present`, to symbols ranked below it. */
  lemma PushSymbol(r: string, present: bool, c: char, bound: nat) returns (r': string)
    requires IsModifierSymbol(c) && RankedBelow(r, SymbolRank(c)) && SymbolRank(c) < bound
    ensures r' == r + (if present then [c] else [])
    ensures RankedBelow(r', bound)
  {
    r' := r + (if present then [c] else []);
  }

  lemma ModifierSymbolsShowFlags(mods: set<ModifierFlag>)
    ensures var r := ModifierSymbols(mods);
      && (ControlSymbol in r <==> ControlFlag in mods) && (OptionSymbol in r <==> OptionFlag in mods)
      && (ShiftSymbol in r <==> ShiftFlag in mods) && (CommandSymbol in r <==> CommandFlag in mods)
  {
  }

  /** What `getHotkeyDisplayString` shows: the fallback without a shortcut,
      otherwise the modifier symbols followed by the key's label, if any. */
  function DisplayString(shortcut: Option<Shortcut>, fallback: string): string {
    match shortcut
    case None => fallback
    case Some(s) =>
      ModifierSymbols(s.modifiers) + (if s.key.Some? then KeyToDisplayString(s.key.value) else [])
  }

  /** The flags the display shows. */
  function ShownFlags(mods: set<ModifierFlag>): set<ModifierFlag> {
    mods * {ControlFlag, OptionFlag, ShiftFlag, CommandFlag}
  }

  lemma ModifierSymbolsDetermineFlags(m1: set<ModifierFlag>, m2: set<ModifierFlag>)
    requires ModifierSymbols(m1) == ModifierSymbols(m2)
    ensures ShownFlags(m1) == ShownFlags(m2)
  {
    ModifierSymbolsFacts(m1);
    ModifierSymbolsFacts(m2);
  }

  lemma SymbolInPrefix(p: string, k: string, i: int)
    requires forall j :: 0 <= j < |p| ==> IsModifierSymbol(p[j])
    requires 0 <= i < |p|
    ensures IsModifierSymbol((p + k)[i])
  {
  }

  /** The modifier part of a display ends where the first non-symbol is. */
  lemma {:induction false} SplitAtKey(p1: string, k1: string, p2: string, k2: string)
    requires forall i :: 0 <= i < |p1| ==> IsModifierSymbol(p1[i])
    requires forall i :: 0 <= i < |p2| ==> IsModifierSymbol(p2[i])
    requires k1 == [] || !IsModifierSymbol(k1[0])
    requires k2 == [] || !IsModifierSymbol(k2[0])
    requires p1 + k1 == p2 + k2
    ensures p1 == p2 && k1 == k2
  {
    if |p1| < |p2| {
      SymbolInPrefix(p2, k2, |p1|);
      assert false;
    } else if |p2| < |p1| {
      SymbolInPrefix(p1, k1, |p2|);
      assert false;
    }
    assert p1 == (p1 + k1)[..|p1|];
    assert p2 == (p2 + k2)[..|p2|];
    assert k1 == (p1 + k1)[|p1|..];
    assert k2 == (p2 + k2)[|p2|..];
  }

  /** A display string determines its shortcut: the key, when named, and
      the control, option, shift and command flags. */
  lemma DisplayDeterminesShortcut(s1: Shortcut, s2: Shortcut, fallback: string)
    requires s1.key.Some? ==> Named(s1.key.value)
    requires s2.key.Some? ==> Named(s2.key.value)
    requires DisplayString(Some(s1), fallback) == DisplayString(Some(s2), fallback)
    ensures s1.key == s2.key
    ensures ShownFlags(s1.modifiers) == ShownFlags(s2.modifiers)
  {
    var k1 := if s1.key.Some? then KeyToDisplayString(s1.key.value) else [];
    var k2 := if s2.key.Some? then KeyToDisplayString(s2.key.value) else [];
    ModifierSymbolsFacts(s1.modifiers);
    ModifierSymbolsFacts(s2.modifiers);
    SplitAtKey(ModifierSymbols(s1.modifiers), k1, ModifierSymbols(s2.modifiers), k2);
    ModifierSymbolsDetermineFlags(s1.modifiers, s2.modifiers);
    if s1.key.Some? && s2.key.Some? {
      KeyLabelsDistinct(s1.key.value, s2.key.value);
    }
  }

  /** The placeholder shown for the copy shortcut before the first update
      lists command before shift, an order the formatter never produces. */
  lemma CopyPlaceholderIsNotFormatted(s: Shortcut)
    ensures DisplayString(Some(s), NoHotkeySet) != InitialCopyHotkeyString
  {
    var m := ModifierSymbols(s.modifiers);
    var k := if s.key.Some? then KeyToDisplayString(s.key.value) else [];
    ModifierSymbolsFacts(s.modifiers);
    CommandNeverBeforeShift(s.modifiers);
    if m + k == InitialCopyHotkeyString {
      SplitAtKey(m, k, [OptionSymbol, CommandSymbol, ShiftSymbol], ['C']);
      assert false;
    }
  }

  lemma CommandNeverBeforeShift(mods: set<ModifierFlag>)
    ensures ModifierSymbols(mods) != [OptionSymbol, CommandSymbol, ShiftSymbol]
  {
    ModifierSymbolsFacts(mods);
    var r := ModifierSymbols(mods);
    if |r| == 3 {
      assert SymbolRank(r[1]) < SymbolRank(r[2]);
    }
  }

  const InitialHotkeyString: string := [CommandSymbol, 'G']
  const InitialCopyHotkeyString: string := [OptionSymbol, CommandSymbol, ShiftSymbol, 'C']

  /** `getHotkeyDisplayString`, building the result step by step. */
  method HotkeyDisplayString(shortcut: Option<Shortcut>, fallback: string) returns (result: string)
    ensures result == DisplayString(shortcut, fallback)
  {
    if shortcut.None? {
      return fallback;
    }
    var s := shortcut.value;
    result := "";
    var mods := s.modifiers;
    if ControlFlag in mods {
      result := result + [ControlSymbol];
    }
    assert result == if ControlFlag in mods then [ControlSymbol] else [];
    ghost var before := result;
    if OptionFlag in mods {
      result := result + [OptionSymbol];
    }
    assert result == before + if OptionFlag in mods then [OptionSymbol] else [];
    before := result;
    if ShiftFlag in mods {
      result := result + [ShiftSymbol];
    }
    assert result == before + if ShiftFlag in mods then [ShiftSymbol] else [];
    before := result;
    if CommandFlag in mods {
      result := result + [CommandSymbol];
    }
    assert result == before + if CommandFlag in mods then [CommandSymbol] else [];
    assert result == ModifierSymbols(mods);
    if s.key.Some? {
      var keyChar := KeyToDisplayString(s.key.value);
      result := result + keyChar;
    }
  }

  // ---------------------------------------------------------------------
  // The manager

  /** What a key event triggers. */
  datatype Action = NoAction | ToggleRecording | StartRecording | StopRecording | CopyLastTranscription

  /** The three places a handler can be bound. */
  datatype Slot = RecordingKeyDown | RecordingKeyUp | CopyKeyDown

  datatype Binding = Binding(slot: Slot, action: Action)

  /** The three empty bindings that clear the table. */
  const ClearAll: seq<Binding> :=
    [Binding(RecordingKeyDown, NoAction), Binding(RecordingKeyUp, NoAction), Binding(CopyKeyDown, NoAction)]

  /** The bindings `registerHotkey` makes after clearing the table: the
      recording shortcut's, then the copy shortcut's. */
  function RegisterBindings(mode: RecordingMode, copyHotkeyString: string): seq<Binding> {
    ModeBindings(mode) + CopyBindings(copyHotkeyString)
  }

  function ModeBindings(mode: RecordingMode): seq<Binding> {
    match mode
    case Toggle => [Binding(RecordingKeyDown, ToggleRecording)]
    case Hold => [Binding(RecordingKeyDown, StartRecording), Binding(RecordingKeyUp, StopRecording)]
  }

  function CopyBindings(copyHotkeyString: string): seq<Binding> {
    if copyHotkeyString != NoHotkeySet then [Binding(CopyKeyDown, CopyLastTranscription)] else []
  }

  /** The action bound to `slot` after `bindings`, starting from `initial`:
      the last binding made to that slot. */
  function BoundAfter(bindings: seq<Binding>, slot: Slot, initial: Action): Action {
    if bindings == [] then initial
    else if bindings[|bindings| - 1].slot == slot then bindings[|bindings| - 1].action
    else BoundAfter(bindings[..|bindings| - 1], slot, initial)
  }

  lemma {:induction false} BoundAfterAppend(a: seq<Binding>, b: seq<Binding>, slot: Slot, initial: Action)
    ensures BoundAfter(a + b, slot, initial) == BoundAfter(b, slot, BoundAfter(a, slot, initial))
    decreases |b|
  {
    if b == [] {
      assert a + b == a;
    } else {
      assert (a + b)[..|a + b| - 1] == a + b[..|b| - 1];
      BoundAfterAppend(a, b[..|b| - 1], slot, initial);
    }
  }

  lemma ClearAllClears(slot: Slot, a: Action)
    ensures BoundAfter(ClearAll, slot, a) == NoAction
  {
    assert ClearAll[..2][..1] == [Binding(RecordingKeyDown, NoAction)];
    assert ClearAll[..2] == [Binding(RecordingKeyDown, NoAction), Binding(RecordingKeyUp, NoAction)];
  }

  /** Registering binds, whatever was bound before: in toggle mode key-down
      toggles and key-up does nothing; in hold mode key-down starts and
      key-up stops; key-down of the copy shortcut copies exactly when a copy
      shortcut is set. */
  lemma RegisterTable(mode: RecordingMode, copy: string, d: Action, u: Action, c: Action)
    ensures var log := ClearAll + RegisterBindings(mode, copy);
      && BoundAfter(log, RecordingKeyDown, d) == (if mode == Toggle then ToggleRecording else StartRecording)
      && BoundAfter(log, RecordingKeyUp, u) == (if mode == Toggle then NoAction else StopRecording)
      && BoundAfter(log, CopyKeyDown, c) == (if copy != NoHotkeySet then CopyLastTranscription else NoAction)
  {
    var r := RegisterBindings(mode, copy);
    ClearAllClears(RecordingKeyDown, d);
    ClearAllClears(RecordingKeyUp, u);
    ClearAllClears(CopyKeyDown, c);
    BoundAfterAppend(ClearAll, r, RecordingKeyDown, d);
    BoundAfterAppend(ClearAll, r, RecordingKeyUp, u);
    BoundAfterAppend(ClearAll, r, CopyKeyDown, c);
    var copyPart: seq<Binding> := if copy != NoHotkeySet then [Binding(CopyKeyDown, CopyLastTranscription)] else [];
    if mode == Toggle {
      var toggle := [Binding(RecordingKeyDown, ToggleRecording)];
      assert r == toggle + copyPart;
      BoundAfterAppend(toggle, copyPart, RecordingKeyDown, NoAction);
      BoundAfterAppend(toggle, copyPart, RecordingKeyUp, NoAction);
      BoundAfterAppend(toggle, copyPart, CopyKeyDown, NoAction);
    } else {
      var hold := [Binding(RecordingKeyDown, StartRecording), Binding(RecordingKeyUp, StopRecording)];
      assert r == hold + copyPart;
      assert hold[..1] == [Binding(RecordingKeyDown, StartRecording)];
      BoundAfterAppend(hold, copyPart, RecordingKeyDown, NoAction);
      BoundAfterAppend(hold, copyPart, RecordingKeyUp, NoAction);
      BoundAfterAppend(hold, copyPart, CopyKeyDown, NoAction);
    }
  }

  class SimpleHotkeyManager {
    var isEnabled: bool
    var currentHotkeyString: string
    var currentCopyHotkeyString: string
    /** The handler table. */
    var recordingKeyDown: Action
    var recordingKeyUp: Action
    var copyKeyDown: Action
    /** Every binding made, in order. */
    var installs: seq<Binding>
    /** How many times a display string was written (each write publishes a
        change). */
    var stringWrites: nat

    /** The table agrees with the bindings made, starting from an empty
        table. */
    ghost predicate Valid()
      reads this
    {
      && recordingKeyDown == BoundAfter(installs, RecordingKeyDown, NoAction)
      && recordingKeyUp == BoundAfter(installs, RecordingKeyUp, NoAction)
      && copyKeyDown == BoundAfter(installs, CopyKeyDown, NoAction)
    }

    /** The manager starts disabled with nothing bound and both strings
        computed from the stored shortcuts. */
    constructor (recordingShortcut: Option<Shortcut>, copyShortcut: Option<Shortcut>)
      ensures Valid()
      ensures !isEnabled && installs == []
      ensures currentHotkeyString == DisplayString(recordingShortcut, NoHotkeySet)
      ensures currentCopyHotkeyString == DisplayString(copyShortcut, NoHotkeySet)
    {
      isEnabled := false;
      currentHotkeyString := InitialHotkeyString;
      currentCopyHotkeyString := InitialCopyHotkeyString;
      recordingKeyDown, recordingKeyUp, copyKeyDown := NoAction, NoAction, NoAction;
      installs := [];
      stringWrites := 0;
      new;
      UpdateCurrentHotkeyString(recordingShortcut);
      UpdateCurrentCopyHotkeyString(copyShortcut);
    }

    /** Recomputes the recording shortcut's display string, writing it only
        when it changed. */
    method UpdateCurrentHotkeyString(shortcut: Option<Shortcut>)
      modifies this`currentHotkeyString, this`stringWrites
      ensures currentHotkeyString == DisplayString(shortcut, NoHotkeySet)
      ensures stringWrites == old(stringWrites) + (if old(currentHotkeyString) == currentHotkeyString then 0 else 1)
    {
      var newHotkeyString := HotkeyDisplayString(shortcut, NoHotkeySet);
      if currentHotkeyString != newHotkeyString {
        currentHotkeyString := newHotkeyString;
        stringWrites := stringWrites + 1;
      }
    }

    /** Recomputes the copy shortcut's display string, writing it only when
        it changed. */
    method UpdateCurrentCopyHotkeyString(shortcut: Option<Shortcut>)
      modifies this`currentCopyHotkeyString, this`stringWrites
      ensures currentCopyHotkeyString == DisplayString(shortcut, NoHotkeySet)
      ensures stringWrites == old(stringWrites)
        + (if old(currentCopyHotkeyString) == currentCopyHotkeyString then 0 else 1)
    {
      var newHotkeyString := HotkeyDisplayString(shortcut, NoHotkeySet);
      if currentCopyHotkeyString != newHotkeyString {
        currentCopyHotkeyString := newHotkeyString;
        stringWrites := stringWrites + 1;
      }
    }

    method Bind(slot: Slot, action: Action)
      requires Valid()
      modifies this`recordingKeyDown, this`recordingKeyUp, this`copyKeyDown, this`installs
      ensures Valid()
      ensures installs == old(installs) + [Binding(slot, action)]
      ensures recordingKeyDown == if slot == RecordingKeyDown then action else old(recordingKeyDown)
      ensures recordingKeyUp == if slot == RecordingKeyUp then action else old(recordingKeyUp)
      ensures copyKeyDown == if slot == CopyKeyDown then action else old(copyKeyDown)
    {
      match slot {
        case RecordingKeyDown => recordingKeyDown := action;
        case RecordingKeyUp => recordingKeyUp := action;
        case CopyKeyDown => copyKeyDown := action;
      }
      installs := installs + [Binding(slot, action)];
    }

    /** Clears all three handlers, binds the recording shortcut for `mode`
        and the copy shortcut when one is set, and enables the manager. */
    method RegisterHotkey(mode: RecordingMode)
      requires Valid()
      modifies this`recordingKeyDown, this`recordingKeyUp, this`copyKeyDown, this`installs, this`isEnabled
      ensures Valid() && isEnabled
      ensures installs == old(installs) + ClearAll + RegisterBindings(mode, currentCopyHotkeyString)
      ensures recordingKeyDown == (if mode == Toggle then ToggleRecording else StartRecording)
      ensures recordingKeyUp == (if mode == Toggle then NoAction else StopRecording)
      ensures copyKeyDown == (if currentCopyHotkeyString != NoHotkeySet then CopyLastTranscription else NoAction)
    {
      ClearHandlers();
      ghost var cleared := installs;
      match mode {
        case Toggle =>
          Bind(RecordingKeyDown, ToggleRecording);
        case Hold =>
          Bind(RecordingKeyDown, StartRecording);
          Bind(RecordingKeyUp, StopRecording);
          AppendAssociates(cleared, [Binding(RecordingKeyDown, StartRecording)],
                           [Binding(RecordingKeyUp, StopRecording)]);
      }
      assert installs == cleared + ModeBindings(mode);
      if currentCopyHotkeyString != NoHotkeySet {
        Bind(CopyKeyDown, CopyLastTranscription);
        AppendAssociates(cleared, ModeBindings(mode), CopyBindings(currentCopyHotkeyString));
      } else {
        assert ModeBindings(mode) + CopyBindings(currentCopyHotkeyString) == ModeBindings(mode);
      }
      isEnabled := true;
    }

    /** Binds all three handlers to nothing. */
    method ClearHandlers()
      requires Valid()
      modifies this`recordingKeyDown, this`recordingKeyUp, this`copyKeyDown, this`installs
      ensures Valid()
      ensures installs == old(installs) + ClearAll
      ensures recordingKeyDown == NoAction && recordingKeyUp == NoAction && copyKeyDown == NoAction
    {
      ghost var start := installs;
      Bind(RecordingKeyDown, NoAction);
      Bind(RecordingKeyUp, NoAction);
      AppendAssociates(start, [Binding(RecordingKeyDown, NoAction)], [Binding(RecordingKeyUp, NoAction)]);
      Bind(CopyKeyDown, NoAction);
      AppendAssociates(start, ClearAll[..2], [Binding(CopyKeyDown, NoAction)]);
    }

    /** Does nothing when disabled; otherwise clears all three handlers and
        disables the manager. */
    method UnregisterHotkey()
      requires Valid()
      modifies this`recordingKeyDown, this`recordingKeyUp, this`copyKeyDown, this`installs, this`isEnabled
      ensures Valid()
      ensures !old(isEnabled) ==> unchanged(this)
      ensures old(isEnabled) ==>
        && !isEnabled && installs == old(installs) + ClearAll
        && recordingKeyDown == NoAction && recordingKeyUp == NoAction && copyKeyDown == NoAction
    {
      if !isEnabled {
        return;
      }
      ClearHandlers();
      isEnabled := false;
    }
  }
}
