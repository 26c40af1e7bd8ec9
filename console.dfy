/**
 * The debug console: its capped message log and command history, the
 * editing of the input line, and the argument checks of its commands.
 */
module Console {
  import opened Wrappers
  import opened Species
  import opened Text

  datatype MessageType = Command | Info | Warning | Error | Success

  datatype ConsoleMessage = ConsoleMessage(text: string, messageType: MessageType)

  datatype ConsoleCommand = ConsoleCommand(command: string, args: seq<string>)

  // ---- capped logs ----

  /** Append to the back, then drop from the front while over the cap (a VecDeque used as a ring). */
  function PushCapped<T>(s: seq<T>, x: T, cap: nat): (r: seq<T>)
    ensures |s| <= cap ==> |r| <= cap
    ensures |s| < cap ==> r == s + [x]
    ensures |r| <= |s| + 1 && r == (s + [x])[|s| + 1 - |r|..]
  {
    var t := s + [x];
    if |t| > cap then t[1..] else t
  }

  /** A run of capped appends. */
  function PushAllCapped<T>(s: seq<T>, xs: seq<T>, cap: nat): seq<T>
    decreases |xs|
  {
    if xs == [] then s else PushAllCapped(PushCapped(s, xs[0], cap), xs[1..], cap)
  }

  /** The last n elements. */
  function Newest<T>(s: seq<T>, n: nat): seq<T>
    requires n <= |s|
  {
    s[|s| - n..]
  }

  /**
   * Starting within the cap, any run of capped appends keeps exactly the
   * newest entries: as many as fit, the oldest dropped first.
   */
  lemma {:induction false} PushAllKeepsNewest<T>(s: seq<T>, xs: seq<T>, cap: nat)
    requires |s| <= cap
    ensures var all := s + xs;
      PushAllCapped(s, xs, cap) == Newest(all, if |all| < cap then |all| else cap)
    decreases |xs|
  {
    if xs != [] {
      var s' := PushCapped(s, xs[0], cap);
      assert s + xs == (s + [xs[0]]) + xs[1..];
      PushAllKeepsNewest(s', xs[1..], cap);
      var all := s + xs;
      var n := if |all| < cap then |all| else cap;
      var all' := s' + xs[1..];
      if |s| < cap {
        assert all' == all;
      } else {
        assert s' == (s + [xs[0]])[1..];
        assert all' == all[1..];
      }
    } else {
      assert s + xs == s;
    }
  }

  class ConsoleHistory {
    var messages: seq<ConsoleMessage>
    var commandHistory: seq<string>
    var historyIndex: nat
    var maxMessages: nat
    var maxHistory: nat

    ghost predicate Valid()
      reads this
    {
      |messages| <= maxMessages && |commandHistory| <= maxHistory && historyIndex <= |commandHistory|
    }

    constructor ()
      ensures Valid() && messages == [] && commandHistory == [] && historyIndex == 0
      ensures maxMessages == 100 && maxHistory == 50
    {
      messages := [];
      commandHistory := [];
      historyIndex := 0;
      maxMessages := 100;
      maxHistory := 50;
    }

    /** add_console_message: log a message, dropping the oldest once over the cap. */
    method AddConsoleMessage(text: string, messageType: MessageType)
      requires Valid()
      modifies this
      ensures Valid()
      ensures messages == PushCapped(old(messages), ConsoleMessage(text, messageType), maxMessages)
      ensures commandHistory == old(commandHistory) && historyIndex == old(historyIndex)
      ensures maxMessages == old(maxMessages) && maxHistory == old(maxHistory)
    {
      messages := messages + [ConsoleMessage(text, messageType)];
      if |messages| > maxMessages {
        messages := messages[1..];
      }
    }

    /** The `clear` command: the log is emptied, then the confirmation is logged. */
    method Clear()
      requires Valid()
      modifies this
      ensures Valid()
      ensures messages == PushCapped([], ConsoleMessage("Console cleared", Info), maxMessages)
      ensures commandHistory == old(commandHistory) && historyIndex == old(historyIndex)
      ensures maxMessages == old(maxMessages) && maxHistory == old(maxHistory)
    {
      messages := [];
      AddConsoleMessage("Console cleared", Info);
    }
  }

  // ---- the input line ----

  /** The text with the character at i removed (`String::remove`). */
  function RemoveAt(s: string, i: nat): (r: string)
    requires i < |s|
    ensures |r| == |s| - 1
    ensures forall k :: 0 <= k < i ==> r[k] == s[k]
    ensures forall k :: i <= k < |r| ==> r[k] == s[k + 1]
  {
    s[..i] + s[i + 1..]
  }

  /** The text with c inserted before position i (`String::insert`). */
  function InsertAt(s: string, i: nat, c: char): (r: string)
    requires i <= |s|
    ensures |r| == |s| + 1 && r[i] == c
    ensures forall k :: 0 <= k < i ==> r[k] == s[k]
    ensures forall k :: i < k < |r| ==> r[k] == s[k - 1]
  {
    s[..i] + [c] + s[i..]
  }

  /** Typing a character and then backspacing over it restores the text. */
  lemma BackspaceUndoesInsert(s: string, i: nat, c: char)
    requires i <= |s|
    ensures RemoveAt(InsertAt(s, i, c), i) == s
  {
    var r := RemoveAt(InsertAt(s, i, c), i);
    assert forall k :: 0 <= k < |s| ==> r[k] == s[k];
  }

  class ConsoleTextInput {
    var currentText: string
    var cursorPosition: nat
    var focused: bool

    ghost predicate Valid()
      reads this
    {
      cursorPosition <= |currentText|
    }

    constructor ()
      ensures Valid() && currentText == [] && cursorPosition == 0 && !focused
    {
      currentText := [];
      cursorPosition := 0;
      focused := false;
    }

    /** Backspace: remove the character before the cursor and step back onto its place. */
    method Backspace()
      requires Valid()
      modifies this
      ensures Valid() && focused == old(focused)
      ensures old(cursorPosition) > 0 ==>
        currentText == RemoveAt(old(currentText), old(cursorPosition) - 1) && cursorPosition == old(cursorPosition) - 1
      ensures old(cursorPosition) == 0 ==> currentText == old(currentText) && cursorPosition == 0
    {
      if cursorPosition > 0 {
        var pos := cursorPosition - 1;
        currentText := RemoveAt(currentText, pos);
        cursorPosition := pos;
      }
    }

    /** Delete: remove the character under the cursor, if there is one; the cursor stays. */
    method Delete()
      requires Valid()
      modifies this
      ensures Valid() && focused == old(focused) && cursorPosition == old(cursorPosition)
      ensures old(cursorPosition) < |old(currentText)| ==> currentText == RemoveAt(old(currentText), old(cursorPosition))
      ensures old(cursorPosition) == |old(currentText)| ==> currentText == old(currentText)
    {
      var pos := cursorPosition;
      if pos < |currentText| {
        currentText := RemoveAt(currentText, pos);
      }
    }

    method ArrowLeft()
      requires Valid()
      modifies this
      ensures Valid() && currentText == old(currentText) && focused == old(focused)
      ensures cursorPosition == if old(cursorPosition) > 0 then old(cursorPosition) - 1 else 0
    {
      if cursorPosition > 0 {
        cursorPosition := cursorPosition - 1;
      }
    }

    method ArrowRight()
      requires Valid()
      modifies this
      ensures Valid() && currentText == old(currentText) && focused == old(focused)
      ensures cursorPosition == if old(cursorPosition) < |currentText| then old(cursorPosition) + 1 else old(cursorPosition)
    {
      if cursorPosition < |currentText| {
        cursorPosition := cursorPosition + 1;
      }
    }

    /** A typed character goes in at the cursor, which moves past it. */
    method TypeChar(c: char)
      requires Valid()
      modifies this
      ensures Valid() && focused == old(focused)
      ensures currentText == InsertAt(old(currentText), old(cursorPosition), c)
      ensures cursorPosition == old(cursorPosition) + 1
    {
      var pos := cursorPosition;
      currentText := InsertAt(currentText, pos, c);
      cursorPosition := pos + 1;
    }

    /** The frame's typed characters, one after another at the moving cursor. */
    method TypeChars(cs: seq<char>)
      requires Valid()
      modifies this
      ensures Valid() && focused == old(focused)
      ensures currentText == old(currentText[..cursorPosition]) + cs + old(currentText[cursorPosition..])
      ensures cursorPosition == old(cursorPosition) + |cs|
    {
      for i := 0 to |cs|
        invariant Valid() && focused == old(focused)
        invariant currentText == old(currentText[..cursorPosition]) + cs[..i] + old(currentText[cursorPosition..])
        invariant cursorPosition == old(cursorPosition) + i
      {
        TypeChar(cs[i]);
        assert cs[..i + 1] == cs[..i] + [cs[i]];
      }
      assert cs[..|cs|] == cs;
    }
  }

  class ConsoleState {
    var visible: bool

    constructor ()
      ensures !visible
    {
      visible := false;
    }
  }

  /** console_toggle_system: the ~ key shows or hides the console; showing it resets and focuses the input. */
  method ToggleConsole(state: ConsoleState, input: ConsoleTextInput, pressedBackquote: bool)
    requires input.Valid()
    modifies state, input
    ensures input.Valid()
    ensures state.visible == (old(state.visible) != pressedBackquote)
    ensures pressedBackquote && state.visible ==> input.currentText == [] && input.cursorPosition == 0 && input.focused
    ensures pressedBackquote && !state.visible ==>
      !input.focused && input.currentText == old(input.currentText) && input.cursorPosition == old(input.cursorPosition)
    ensures !pressedBackquote ==>
      input.currentText == old(input.currentText) && input.cursorPosition == old(input.cursorPosition) && input.focused == old(input.focused)
  {
    if pressedBackquote {
      state.visible := !state.visible;
      if state.visible {
        input.currentText := [];
        input.cursorPosition := 0;
        input.focused := true;
      } else {
        input.focused := false;
      }
    }
  }

  /** The command a line submits: its first word, with the other words as arguments. */
  function ParseCommandLine(line: string): (r: Option<ConsoleCommand>)
    ensures r.None? <==> forall k :: 0 <= k < |line| ==> IsWhitespace(line[k])
    ensures r.Some? ==> r.value.command != [] && [r.value.command] + r.value.args == SplitWhitespace(line)
  {
    var words := SplitWhitespace(line);
    if words == [] then None
    else
      assert words[0] in words && [words[0]] + words[1..] == words;
      Some(ConsoleCommand(words[0], words[1..]))
  }

  /** A line holding one word is that command, with no arguments. */
  lemma SingleWordCommand(w: string)
    requires w != [] && forall c :: c in w ==> !IsWhitespace(c)
    ensures ParseCommandLine(w) == Some(ConsoleCommand(w, []))
  {
    SplitPaddedWord([], w, []);
    assert [] + w + [] == w;
  }

  /**
   * Enter: a non-empty line is cleared and, when it holds a word, recorded in
   * the command history (index moved past the newest entry), echoed to the
   * log and sent as a command.
   */
  method Submit(history: ConsoleHistory, input: ConsoleTextInput) returns (command: Option<ConsoleCommand>)
    requires history.Valid() && input.Valid()
    modifies history, input
    ensures history.Valid() && input.Valid() && input.focused == old(input.focused)
    ensures history.maxMessages == old(history.maxMessages) && history.maxHistory == old(history.maxHistory)
    ensures old(input.currentText) == [] ==>
      command == None && input.currentText == [] && input.cursorPosition == old(input.cursorPosition)
      && history.messages == old(history.messages) && history.commandHistory == old(history.commandHistory)
      && history.historyIndex == old(history.historyIndex)
    ensures old(input.currentText) != [] ==>
      input.currentText == [] && input.cursorPosition == 0 && command == ParseCommandLine(old(input.currentText))
    ensures old(input.currentText) != [] && command.Some? ==>
      history.commandHistory == PushCapped(old(history.commandHistory), old(input.currentText), history.maxHistory)
      && history.historyIndex == |history.commandHistory|
      && history.messages == PushCapped(old(history.messages), ConsoleMessage("> " + old(input.currentText), Command), history.maxMessages)
    ensures command.None? ==>
      history.messages == old(history.messages) && history.commandHistory == old(history.commandHistory)
      && history.historyIndex == old(history.historyIndex)
  {
    command := None;
    if input.currentText != [] {
      command := ParseCommandLine(input.currentText);
      if command.Some? {
        var line := input.currentText;
        history.commandHistory := PushCapped(history.commandHistory, line, history.maxHistory);
        history.historyIndex := |history.commandHistory|;
        history.AddConsoleMessage("> " + line, Command);
      }
      input.currentText := [];
      input.cursorPosition := 0;
    }
  }

  /** ArrowUp: step back through the history and recall that command, cursor at its end. */
  method HistoryUp(history: ConsoleHistory, input: ConsoleTextInput)
    requires history.Valid() && input.Valid()
    modifies history, input
    ensures history.Valid() && input.Valid() && input.focused == old(input.focused)
    ensures history.messages == old(history.messages) && history.commandHistory == old(history.commandHistory)
    ensures history.maxMessages == old(history.maxMessages) && history.maxHistory == old(history.maxHistory)
    ensures old(history.historyIndex) > 0 ==>
      history.historyIndex == old(history.historyIndex) - 1
      && input.currentText == history.commandHistory[history.historyIndex]
      && input.cursorPosition == |input.currentText|
    ensures old(history.historyIndex) == 0 ==>
      history.historyIndex == 0 && input.currentText == old(input.currentText) && input.cursorPosition == old(input.cursorPosition)
  {
    if history.historyIndex > 0 {
      history.historyIndex := history.historyIndex - 1;
      if history.historyIndex < |history.commandHistory| {
        input.currentText := history.commandHistory[history.historyIndex];
        input.cursorPosition := |input.currentText|;
      }
    }
  }

  /** ArrowDown: step forward through the history; stepping past the newest entry clears the line. */
  method HistoryDown(history: ConsoleHistory, input: ConsoleTextInput)
    requires history.Valid() && input.Valid()
    modifies history, input
    ensures history.Valid() && input.Valid() && input.focused == old(input.focused)
    ensures history.messages == old(history.messages) && history.commandHistory == old(history.commandHistory)
    ensures history.maxMessages == old(history.maxMessages) && history.maxHistory == old(history.maxHistory)
    ensures old(history.historyIndex) < |history.commandHistory| ==> history.historyIndex == old(history.historyIndex) + 1
    ensures old(history.historyIndex) == |history.commandHistory| ==>
      history.historyIndex == old(history.historyIndex)
      && input.currentText == old(input.currentText) && input.cursorPosition == old(input.cursorPosition)
    ensures history.historyIndex == |history.commandHistory| && old(history.historyIndex) < |history.commandHistory| ==>
      input.currentText == [] && input.cursorPosition == 0
    ensures history.historyIndex < |history.commandHistory| ==>
      input.currentText == history.commandHistory[history.historyIndex] && input.cursorPosition == |input.currentText|
  {
    if history.historyIndex < |history.commandHistory| {
      history.historyIndex := history.historyIndex + 1;
      if history.historyIndex == |history.commandHistory| {
        input.currentText := [];
        input.cursorPosition := 0;
      } else {
        input.currentText := history.commandHistory[history.historyIndex];
        input.cursorPosition := |input.currentText|;
      }
    }
  }

  /** The keys pressed in one frame; `typed` are the characters of the pressed letter, digit and symbol keys, in key order. */
  datatype Keys = Keys(
    enter: bool, backspace: bool, delete: bool, left: bool, right: bool, up: bool, down: bool,
    typed: seq<char>)

  // ---- what a frame's keys make of the input line ----

  /** The input line and the history cursor, as one value: text, cursor position and history index. */
  datatype Line = Line(text: string, cursor: nat, index: nat)

  /** The line is well formed against a command history of h entries. */
  predicate LineOk(l: Line, h: nat)
  {
    l.cursor <= |l.text| && l.index <= h
  }

  /** Backspace on the line: the character before the cursor goes, the cursor steps back. */
  function BackspaceKey(l: Line): (r: Line)
    requires l.cursor <= |l.text|
    ensures r.index == l.index && r.cursor <= |r.text|
    ensures l.cursor > 0 <==> |r.text| == |l.text| - 1
  {
    if l.cursor > 0 then Line(RemoveAt(l.text, l.cursor - 1), l.cursor - 1, l.index) else l
  }

  /** Delete on the line: the character under the cursor goes, the cursor stays. */
  function DeleteKey(l: Line): (r: Line)
    requires l.cursor <= |l.text|
    ensures r.index == l.index && r.cursor == l.cursor && r.cursor <= |r.text|
    ensures l.cursor < |l.text| <==> |r.text| == |l.text| - 1
  {
    if l.cursor < |l.text| then Line(RemoveAt(l.text, l.cursor), l.cursor, l.index) else l
  }

  /** ArrowLeft and ArrowRight on the line: the cursor moves one place, within the text. */
  function ArrowKeys(l: Line, left: bool, right: bool): (r: Line)
    requires l.cursor <= |l.text|
    ensures r.text == l.text && r.index == l.index && r.cursor <= |r.text|
    ensures left && !right && l.cursor > 0 ==> r.cursor == l.cursor - 1
    ensures right && !left && l.cursor < |l.text| ==> r.cursor == l.cursor + 1
  {
    var afterLeft := if left && l.cursor > 0 then l.cursor - 1 else l.cursor;
    var afterRight := if right && afterLeft < |l.text| then afterLeft + 1 else afterLeft;
    l.(cursor := afterRight)
  }

  /** ArrowUp against the command history: the previous command is recalled, cursor at its end. */
  function UpKey(l: Line, history: seq<string>): (r: Line)
    requires LineOk(l, |history|)
    ensures LineOk(r, |history|)
    ensures l.index > 0 ==> r == Line(history[l.index - 1], |history[l.index - 1]|, l.index - 1)
  {
    // index <= |history| makes the source's lookup of entry index - 1 always succeed
    if l.index > 0 then Line(history[l.index - 1], |history[l.index - 1]|, l.index - 1) else l
  }

  /** ArrowDown against the command history: the next command is recalled, or the line is cleared past the newest. */
  function DownKey(l: Line, history: seq<string>): (r: Line)
    requires LineOk(l, |history|)
    ensures LineOk(r, |history|)
    ensures l.index + 1 < |history| ==> r == Line(history[l.index + 1], |history[l.index + 1]|, l.index + 1)
    ensures l.index + 1 == |history| ==> r == Line([], 0, |history|)
    ensures l.index == |history| ==> r == l
  {
    if l.index < |history| then
      var k := l.index + 1;
      if k == |history| then Line([], 0, k) else Line(history[k], |history[k]|, k)
    else l
  }

  /** The frame's typed characters, inserted at the cursor, which ends up past them. */
  function TypeKeys(l: Line, cs: seq<char>): (r: Line)
    requires l.cursor <= |l.text|
    ensures r.index == l.index && r.cursor == l.cursor + |cs| && r.cursor <= |r.text|
    ensures r.text[..r.cursor] == l.text[..l.cursor] + cs && r.text[r.cursor..] == l.text[l.cursor..]
  {
    Line(l.text[..l.cursor] + cs + l.text[l.cursor..], l.cursor + |cs|, l.index)
  }

  /** The line after Backspace, Delete and the arrows, in that order. */
  function LocalEdits(l: Line, keys: Keys): (r: Line)
    requires l.cursor <= |l.text|
    ensures r.index == l.index && r.cursor <= |r.text|
  {
    ArrowKeys(Deletions(l, keys.backspace, keys.delete), keys.left, keys.right)
  }

  /** The line after Backspace and then Delete. */
  function Deletions(l: Line, backspace: bool, delete: bool): (r: Line)
    requires l.cursor <= |l.text|
    ensures r.index == l.index && r.cursor <= |r.text|
  {
    var l1 := if backspace then BackspaceKey(l) else l;
    if delete then DeleteKey(l1) else l1
  }

  /** The line after ArrowUp and then ArrowDown against the command history. */
  function HistoryMoves(l: Line, history: seq<string>, up: bool, down: bool): (r: Line)
    requires LineOk(l, |history|)
    ensures LineOk(r, |history|)
  {
    var l1 := if up then UpKey(l, history) else l;
    if down then DownKey(l1, history) else l1
  }

  /** The line after a frame's editing keys: Backspace, Delete, the arrows, history up and down, then the typed characters. */
  function EditedLine(l: Line, history: seq<string>, keys: Keys): (r: Line)
    requires LineOk(l, |history|)
    ensures LineOk(r, |history|)
  {
    TypeKeys(HistoryMoves(LocalEdits(l, keys), history, keys.up, keys.down), keys.typed)
  }

  /**
   * The line after Enter: a non-empty line is cleared, and when it held a
   * command the history index moves to `recorded`, the new history length.
   */
  function SubmittedLine(l: Line, enter: bool, recorded: nat): (r: Line)
    ensures enter && l.text != [] ==> r.text == [] && r.cursor == 0
    ensures !(enter && l.text != []) ==> r == l
    ensures ParseCommandLine(l.text).None? ==> r.index == l.index
  {
    if enter && l.text != [] then Line([], 0, if ParseCommandLine(l.text).Some? then recorded else l.index) else l
  }

  /** A character typed and then backspaced over in the next frame leaves the line as it was. */
  lemma TypeThenBackspace(l: Line, c: char)
    requires l.cursor <= |l.text|
    ensures BackspaceKey(TypeKeys(l, [c])) == l
  {
    var t := TypeKeys(l, [c]);
    assert t.text == InsertAt(l.text, l.cursor, c);
    BackspaceUndoesInsert(l.text, l.cursor, c);
  }

  /** ArrowUp and then ArrowDown in the same frame return to the recalled line's successor, or clear past the newest. */
  lemma UpThenDown(l: Line, history: seq<string>)
    requires LineOk(l, |history|) && 0 < l.index < |history|
    ensures DownKey(UpKey(l, history), history) == Line(history[l.index], |history[l.index]|, l.index)
  {
  }

  /**
   * console_text_input_system: with the console shown and its input focused,
   * the frame's keys are applied in the order Enter, Backspace, Delete,
   * arrows, typed characters.
   */
  method TextInputSystem(state: ConsoleState, history: ConsoleHistory, input: ConsoleTextInput, keys: Keys)
    returns (command: Option<ConsoleCommand>)
    requires history.Valid() && input.Valid()
    modifies history, input
    ensures history.Valid() && input.Valid()
    ensures history.maxMessages == old(history.maxMessages) && history.maxHistory == old(history.maxHistory)
    ensures !(state.visible && old(input.focused)) ==>
      command == None && input.currentText == old(input.currentText) && input.cursorPosition == old(input.cursorPosition)
      && history.messages == old(history.messages) && history.commandHistory == old(history.commandHistory)
      && history.historyIndex == old(history.historyIndex)
    ensures command.Some? <==>
      state.visible && old(input.focused) && keys.enter && old(input.currentText) != []
      && ParseCommandLine(old(input.currentText)).Some?
    ensures command.Some? ==> command == ParseCommandLine(old(input.currentText))
    ensures history.commandHistory
         == if command.Some? then PushCapped(old(history.commandHistory), old(input.currentText), history.maxHistory)
            else old(history.commandHistory)
    // a submitted command is echoed into the capped message log
    ensures history.messages
         == if command.Some? then PushCapped(old(history.messages), ConsoleMessage("> " + old(input.currentText), Command), history.maxMessages)
            else old(history.messages)
    ensures state.visible && old(input.focused) ==>
      Line(input.currentText, input.cursorPosition, history.historyIndex)
      == EditedLine(SubmittedLine(Line(old(input.currentText), old(input.cursorPosition), old(history.historyIndex)),
                                  keys.enter, |history.commandHistory|),
                    history.commandHistory, keys)
  {
    command := None;
    if !state.visible || !input.focused {
      return;
    }
    if keys.enter {
      command := Submit(history, input);
    }
    EditingKeys(history, input, keys);
  }

  /** The keys after Enter, in the order console_text_input_system handles them. */
  method EditingKeys(history: ConsoleHistory, input: ConsoleTextInput, keys: Keys)
    requires history.Valid() && input.Valid()
    modifies history, input
    ensures history.Valid() && input.Valid()
    ensures history.maxMessages == old(history.maxMessages) && history.maxHistory == old(history.maxHistory)
    ensures history.messages == old(history.messages) && history.commandHistory == old(history.commandHistory)
    ensures input.focused == old(input.focused)
    ensures Line(input.currentText, input.cursorPosition, history.historyIndex)
         == EditedLine(Line(old(input.currentText), old(input.cursorPosition), old(history.historyIndex)), history.commandHistory, keys)
  {
    LocalKeys(input, keys, history.historyIndex);
    HistoryKeys(history, input, keys.up, keys.down);
    input.TypeChars(keys.typed);
  }

  /** Backspace, Delete and the arrows: they edit the line and move the cursor, `index` is the history index they leave alone. */
  method LocalKeys(input: ConsoleTextInput, keys: Keys, ghost index: nat)
    requires input.Valid()
    modifies input
    ensures input.Valid() && input.focused == old(input.focused)
    ensures Line(input.currentText, input.cursorPosition, index)
         == LocalEdits(Line(old(input.currentText), old(input.cursorPosition), index), keys)
  {
    DeletionKeys(input, keys.backspace, keys.delete, index);
    if keys.left {
      input.ArrowLeft();
    }
    if keys.right {
      input.ArrowRight();
    }
  }

  /** Backspace and then Delete. */
  method DeletionKeys(input: ConsoleTextInput, backspace: bool, delete: bool, ghost index: nat)
    requires input.Valid()
    modifies input
    ensures input.Valid() && input.focused == old(input.focused)
    ensures Line(input.currentText, input.cursorPosition, index)
         == Deletions(Line(old(input.currentText), old(input.cursorPosition), index), backspace, delete)
  {
    if backspace {
      input.Backspace();
    }
    if delete {
      input.Delete();
    }
  }

  /** ArrowUp and then ArrowDown: they move through the command history and recall its entries. */
  method HistoryKeys(history: ConsoleHistory, input: ConsoleTextInput, up: bool, down: bool)
    requires history.Valid() && input.Valid()
    modifies history, input
    ensures history.Valid() && input.Valid() && input.focused == old(input.focused)
    ensures history.maxMessages == old(history.maxMessages) && history.maxHistory == old(history.maxHistory)
    ensures history.messages == old(history.messages) && history.commandHistory == old(history.commandHistory)
    ensures Line(input.currentText, input.cursorPosition, history.historyIndex)
         == HistoryMoves(Line(old(input.currentText), old(input.cursorPosition), old(history.historyIndex)), history.commandHistory, up, down)
  {
    if up {
      HistoryUp(history, input);
    }
    if down {
      HistoryDown(history, input);
    }
  }

  // ---- commands ----

  /** The part of the time-acceleration resource the `time` command sets. */
  class TimeAcceleration {
    var multiplier: real
    var maxMultiplier: real
    var enabled: bool

    constructor ()
      ensures multiplier == 1.0 && maxMultiplier == 100.0 && !enabled
    {
      multiplier := 1.0;
      maxMultiplier := 100.0;
      enabled := false;
    }
  }

  /** What a console command does, as decided from its name and arguments. */
  datatype CommandOutcome =
    | ShowHelp
    | TestUsage | TestRunUsage | StartTest(scenario: string) | StopTest | ListTests | ShowTestStatus
    | UnknownTestCommand(name: string)
    | ShowMultiplier | SetMultiplier(multiplier: real) | MultiplierOutOfRange | InvalidMultiplier
    | SpawnUsage | Spawning(species: BirdSpecies, count: nat) | CountOutOfRange | InvalidCount
    | UnknownSpecies(name: string)
    | ShowPopulation | ClearLog
    | UnknownCommand(name: string)

  /** The species `spawn` accepts, after lower-casing. */
  function SpawnSpecies(name: string): (r: Option<BirdSpecies>)
    ensures r.Some? ==> r.value in {Robin, Cardinal, BlueJay, Chickadee}
    ensures r.Some? <==> LowerString(name) in ["robin", "cardinal", "bluejay", "chickadee"]
  {
    match LowerString(name)
    case "robin" => Some(Robin)
    case "cardinal" => Some(Cardinal)
    case "bluejay" => Some(BlueJay)
    case "chickadee" => Some(Chickadee)
    case _ => None
  }

  /** The species argument is read without regard to case. */
  lemma SpawnSpeciesIgnoresCase(name: string)
    ensures SpawnSpecies(LowerString(name)) == SpawnSpecies(name)
  {
    LowerStringIdempotent(name);
  }

  /**
   * console_command_processor's decision for one command. `parsedMultiplier`
   * and `parsedCount` stand for parsing the first and second argument as a
   * number (None when the text is not one).
   */
  function Outcome(c: ConsoleCommand, maxMultiplier: real, parsedMultiplier: Option<real>, parsedCount: Option<nat>): (r: CommandOutcome)
    ensures r.SetMultiplier? ==> c.command == "time" && 1.0 <= r.multiplier <= maxMultiplier
    ensures c.command == "time" && c.args != [] && parsedMultiplier.Some? ==>
      (r.SetMultiplier? <==> 1.0 <= parsedMultiplier.value <= maxMultiplier)
    ensures r.Spawning? ==> c.command == "spawn" && 1 <= r.count <= 100
    ensures c.command == "spawn" && |c.args| >= 2 && SpawnSpecies(c.args[0]).Some? && parsedCount.Some? ==>
      (r.Spawning? <==> 1 <= parsedCount.value <= 100)
    ensures r.StartTest? ==> c.command == "test" && |c.args| >= 2 && c.args[0] == "run" && r.scenario == c.args[1]
    ensures r.UnknownCommand? <==> c.command !in {"help", "test", "time", "spawn", "population", "clear"}
  {
    match c.command
    case "help" => ShowHelp
    case "test" =>
      if c.args == [] then TestUsage
      else if c.args[0] == "run" then (if |c.args| < 2 then TestRunUsage else StartTest(c.args[1]))
      else if c.args[0] == "stop" then StopTest
      else if c.args[0] == "list" then ListTests
      else if c.args[0] == "status" then ShowTestStatus
      else UnknownTestCommand(c.args[0])
    case "time" =>
      if c.args == [] then ShowMultiplier
      else if parsedMultiplier.None? then InvalidMultiplier
      else if 1.0 <= parsedMultiplier.value <= maxMultiplier then SetMultiplier(parsedMultiplier.value)
      else MultiplierOutOfRange
    case "spawn" =>
      if |c.args| < 2 then SpawnUsage
      else if SpawnSpecies(c.args[0]).None? then UnknownSpecies(LowerString(c.args[0]))
      else if parsedCount.None? then InvalidCount
      else if 1 <= parsedCount.value <= 100 then Spawning(SpawnSpecies(c.args[0]).value, parsedCount.value)
      else CountOutOfRange
    case "population" => ShowPopulation
    case "clear" => ClearLog
    case _ => UnknownCommand(c.command)
  }

  /** The `time` command's effect on the acceleration resource: only an accepted multiplier is applied. */
  method ApplyTimeOutcome(accel: TimeAcceleration, r: CommandOutcome)
    modifies accel
    ensures accel.maxMultiplier == old(accel.maxMultiplier)
    ensures r.SetMultiplier? ==> accel.multiplier == r.multiplier && accel.enabled == (r.multiplier > 1.0)
    ensures !r.SetMultiplier? ==> accel.multiplier == old(accel.multiplier) && accel.enabled == old(accel.enabled)
  {
    if r.SetMultiplier? {
      accel.multiplier := r.multiplier;
      accel.enabled := r.multiplier > 1.0;
    }
  }

  /** An accepted multiplier keeps the acceleration within [1, max], and turns it on exactly when above 1. */
  lemma AcceptedMultiplierInRange(c: ConsoleCommand, maxMultiplier: real, m: Option<real>, n: Option<nat>)
    requires Outcome(c, maxMultiplier, m, n).SetMultiplier?
    ensures c.args != [] && m.Some? && Outcome(c, maxMultiplier, m, n).multiplier == m.value
    ensures 1.0 <= m.value <= maxMultiplier
  {
  }
}
