/** The dialogue player of Assets/Scripts/DialogManager.cs (class `DiaLogmanager`). The script is
    a comma-separated table split into rows on '\n'. A row is `#` (a line of dialogue), `&` (an
    option button) or `end`; cell 1 holds its id. The manager shows the first `#` row whose id
    is the current `dialogIndex`, then jumps to the id in cell 5. A matching `&` row turns into a
    run of option buttons.

    Exceptions are part of the model: an index past the end of a row, a cell `int.Parse`
    rejects, or an unknown portrait name ends the call where .NET would throw, keeping what was
    already done. Sprites are indices into the inspector's `sprites` list. `OptionEffect` is
    recorded as a call; its camera, music, background and scene work is not modelled, apart from
    the two effects that reset both portraits. */
module Dialogue {

  /** The exceptions the dialogue code can raise. */
  datatype Fault = IndexOutOfRange | FormatError | OverflowError | KeyNotFound

  datatype Result<T> = Ok(value: T) | Fail(fault: Fault)

  // ---------------------------------------------------------------- String.Split

  /** `s.Split(sep)`: the pieces between separators, empty ones included. */
  function Split(s: string, sep: char): (r: seq<string>)
    ensures |r| >= 1
    decreases |s|
  {
    if |s| == 0 then [""]
    else
      var rest := Split(s[1..], sep);
      if s[0] == sep then [""] + rest else [[s[0]] + rest[0]] + rest[1..]
  }

  /** `string.Join(sep, parts)`. */
  function Join(parts: seq<string>, sep: char): string
    requires |parts| >= 1
    decreases |parts|
  {
    parts[0] + if |parts| == 1 then "" else [sep] + Join(parts[1..], sep)
  }

  // ---------------------------------------------------------------- int.Parse

  /** The white space `int.Parse` skips at either end (U+0009 to U+000D and the space). */
  predicate IsWhite(c: char)
  {
    c == ' ' || '\t' <= c <= '\r'
  }

  predicate IsDigit(c: char)
  {
    '0' <= c <= '9'
  }

  predicate AllDigits(s: string)
  {
    forall k :: 0 <= k < |s| ==> IsDigit(s[k])
  }

  function TrimStart(s: string): (r: string)
    ensures |r| <= |s| && (|r| > 0 ==> !IsWhite(r[0]))
    decreases |s|
  {
    if |s| > 0 && IsWhite(s[0]) then TrimStart(s[1..]) else s
  }

  function TrimEnd(s: string): (r: string)
    ensures |r| <= |s| && (|r| > 0 ==> !IsWhite(r[|r| - 1]))
    decreases |s|
  {
    if |s| > 0 && IsWhite(s[|s| - 1]) then TrimEnd(s[..|s| - 1]) else s
  }

  function DigitValue(c: char): nat
    requires IsDigit(c)
  {
    (c as int - '0' as int) as nat
  }

  /** The number a run of decimal digits denotes. */
  function DigitsValue(s: string): nat
    requires AllDigits(s)
    decreases |s|
  {
    if |s| == 0 then 0 else DigitsValue(s[..|s| - 1]) * 10 + DigitValue(s[|s| - 1])
  }

  const Int32Min: int := -2147483648
  const Int32Max: int := 2147483647

  /** `int.Parse(s)`: optional white space, an optional sign, decimal digits, optional white
      space, and a value that fits in 32 bits. */
  function ParseInt(s: string): Result<int>
  {
    ParseTrimmed(TrimEnd(TrimStart(s)))
  }

  /** `int.Parse` on text with no white space at its ends. */
  function ParseTrimmed(t: string): Result<int>
  {
    var negative := |t| > 0 && t[0] == '-';
    var body := if |t| > 0 && (t[0] == '-' || t[0] == '+') then t[1..] else t;
    if |body| == 0 || !AllDigits(body) then Fail(FormatError)
    else
      var v := if negative then -(DigitsValue(body) as int) else DigitsValue(body) as int;
      if v < Int32Min || v > Int32Max then Fail(OverflowError) else Ok(v)
  }

  /** The decimal form of a natural number. */
  function ShowNat(n: nat): (r: string)
    ensures |r| >= 1 && AllDigits(r)
    decreases n
  {
    if n < 10 then [('0' as int + n) as char]
    else ShowNat(n / 10) + [('0' as int + n % 10) as char]
  }

  /** `n.ToString()`. */
  function ShowInt(n: int): string
  {
    if n < 0 then "-" + ShowNat(-n) else ShowNat(n)
  }

  // ---------------------------------------------------------------- the table

  /** Cell `k` of a row, or the exception indexing past its end raises. */
  function Cell(cells: seq<string>, k: nat): Result<string>
  {
    if k < |cells| then Ok(cells[k]) else Fail(IndexOutOfRange)
  }

  /** `int.Parse(cells[k])`. */
  function IdAt(cells: seq<string>, k: nat): Result<int>
  {
    if k < |cells| then ParseInt(cells[k]) else Fail(IndexOutOfRange)
  }

  /** An effect cell `name@param`, split on '@' with the parameter parsed. */
  datatype Effect = Effect(name: string, param: int)

  function EffectOf(cell: string): Result<Effect>
  {
    var parts := Split(cell, '@');
    if |parts| < 2 then Fail(IndexOutOfRange)
    else
      match ParseInt(parts[1])
      case Fail(f) => Fail(f)
      case Ok(p) => Ok(Effect(parts[0], p))
  }

  /** The portrait names `Awake` puts in `imageDic`, each with its index in `sprites`. */
  const PortraitNames: seq<string> := [
    "爱丽儿无语", "爱丽儿平静", "爱丽儿星星眼", "爱丽儿笑", "爱丽儿迷失",
    "米兰达哭", "米兰达好奇", "米兰达平静", "米兰达思考", "米兰达笑",
    "帕克-交互前", "帕克-交互后", "豆花-交互前", "豆花-交互后",
    "菲比&罗宾-交互前", "菲比&罗宾-交互后",
    "米兰达（小）哭", "米兰达（小）平静", "米兰达（小）笑", "null"]

  /** The sprite both portraits get on an exit or an ending (`sprites[19]`). */
  const EmptyPortrait: nat := 19

  /** `imageDic[name]`: the first index of `name` among the portrait names. */
  function Portrait(name: string): Result<nat>
  {
    PortraitFrom(name, 0)
  }

  function PortraitFrom(name: string, k: nat): (r: Result<nat>)
    requires k <= |PortraitNames|
    ensures r.Ok? ==> k <= r.value < |PortraitNames| && PortraitNames[r.value] == name
    ensures r.Fail? ==> r.fault == KeyNotFound && forall j :: k <= j < |PortraitNames| ==> PortraitNames[j] != name
    decreases |PortraitNames| - k
  {
    if k == |PortraitNames| then Fail(KeyNotFound)
    else if PortraitNames[k] == name then Ok(k)
    else PortraitFrom(name, k + 1)
  }

  /** An option button: one that failed to get its label and listener, or a bound choice whose
      listener holds its row's cells. */
  datatype OptionButton = Unlabelled | Choice(text: string, cells: seq<string>)

  /** A call of `OptionEffect`. */
  datatype EffectCall = EffectCall(name: string, param: int, target: string)

  /** What the dialogue shows and holds. */
  datatype DialogData = DialogData(
    dialogIndex: int,
    nameText: string,
    dialogText: string,
    leftSprite: nat,
    rightSprite: nat,
    nextActive: bool,
    buttons: seq<OptionButton>,
    effects: seq<EffectCall>)

  /** What handling one row leaves: go on to the next row, stop scanning, or an exception. */
  datatype Step = Continue(d: DialogData) | Stop(d: DialogData) | Failed(d: DialogData, fault: Fault)

  /** `UpdateImage`: `左` sets the left portrait, `右` the right one, any other position nothing. */
  function WithImage(d: DialogData, name: string, position: string): Result<DialogData>
  {
    if position == "左" then
      match Portrait(name)
      case Fail(f) => Fail(f)
      case Ok(k) => Ok(d.(leftSprite := k))
    else if position == "右" then
      match Portrait(name)
      case Fail(f) => Fail(f)
      case Ok(k) => Ok(d.(rightSprite := k))
    else Ok(d)
  }

  /** `OptionEffect`, as far as the dialogue's own state goes. */
  function WithEffect(d: DialogData, e: Effect, target: string): DialogData
  {
    var d1 := d.(effects := d.effects + [EffectCall(e.name, e.param, target)]);
    if e.name == "退场" || e.name == "结局" then d1.(leftSprite := EmptyPortrait, rightSprite := EmptyPortrait)
    else d1
  }

  /** The body of the `#` branch of `ShowDiaLogRow`: name and text (cells 2 and 4), the
      portrait (cell 8 at position cell 3), the next id (cell 5), the next button, and the effect
      in cell 6 applied to cell 7. */
  function ShowLine(cells: seq<string>, d: DialogData): Step
  {
    if |cells| < 5 then Failed(d, IndexOutOfRange)
    else
      var d1 := d.(nameText := cells[2], dialogText := cells[4]);
      if |cells| < 9 then Failed(d1, IndexOutOfRange)
      else
        match WithImage(d1, cells[8], cells[3])
        case Fail(f) => Failed(d1, f)
        case Ok(d2) =>
          match ParseInt(cells[5])
          case Fail(f) => Failed(d2, f)
          case Ok(next) =>
            var d3 := d2.(dialogIndex := next, nextActive := true);
            if cells[6] == "" then Stop(d3)
            else
              match EffectOf(cells[6])
              case Fail(f) => Failed(d3, f)
              case Ok(e) => Stop(WithEffect(d3, e, cells[7]))
  }

  /** `GenerateOption(k)` and its recursion: one button per consecutive `&` row from row `k`,
      whatever their ids. */
  function Options(rows: seq<string>, k: nat, d: DialogData): (r: Step)
    requires k <= |rows|
    ensures r.Continue? || r.Failed?
    decreases |rows| - k
  {
    if k == |rows| then Failed(d, IndexOutOfRange)
    else
      var cells := Split(rows[k], ',');
      if cells[0] != "&" then Continue(d)
      else if |cells| < 5 then Failed(d.(buttons := d.buttons + [Unlabelled]), IndexOutOfRange)
      else Options(rows, k + 1, d.(buttons := d.buttons + [Choice(cells[4], cells)]))
  }

  /** One pass of the `ShowDiaLogRow` loop, on row `i`. */
  function RowStep(rows: seq<string>, i: nat, d: DialogData): Step
    requires i < |rows|
  {
    var cells := Split(rows[i], ',');
    if cells[0] == "#" then
      match IdAt(cells, 1)
      case Fail(f) => Failed(d, f)
      case Ok(id) => if id == d.dialogIndex then ShowLine(cells, d) else Continue(d)
    else if cells[0] == "&" then
      match IdAt(cells, 1)
      case Fail(f) => Failed(d, f)
      case Ok(id) => if id == d.dialogIndex then Options(rows, i, d.(nextActive := false)) else Continue(d)
    else if cells[0] == "end" then
      match IdAt(cells, i)
      case Fail(f) => Failed(d, f)
      case Ok(_) => Continue(d)
    else Continue(d)
  }

  /** `ShowDiaLogRow` from row `i` on: the state it leaves and the exception that ended it. */
  function Scan(rows: seq<string>, i: nat, d: DialogData): (DialogData, Option<Fault>)
    requires i <= |rows|
    decreases |rows| - i
  {
    if i == |rows| then (d, None)
    else
      match RowStep(rows, i, d)
      case Continue(d1) => Scan(rows, i + 1, d1)
      case Stop(d1) => (d1, None)
      case Failed(d1, f) => (d1, Some(f))
  }

  datatype Option<T> = None | Some(value: T)

  class DialogManager {
    var dialogRows: seq<string>
    var dialogIndex: int
    var nameText: string
    var dialogText: string
    var leftSprite: nat
    var rightSprite: nat
    var nextActive: bool
    var buttons: seq<OptionButton>
    var effects: seq<EffectCall>

    function Data(): DialogData
      reads this
    {
      DialogData(dialogIndex, nameText, dialogText, leftSprite, rightSprite, nextActive, buttons, effects)
    }

    /** The scene's initial state, then `Start`: the script is read and the first line shown. */
    constructor (text: string, startIndex: int, left: nat, right: nat)
      ensures dialogRows == Split(text, '\n')
      ensures Data() == Scan(dialogRows, 0, DialogData(startIndex, "", "", left, right, true, [], [])).0
    {
      dialogIndex := startIndex;
      nameText := "";
      dialogText := "";
      leftSprite := left;
      rightSprite := right;
      nextActive := true;
      buttons := [];
      effects := [];
      dialogRows := [];
      new;
      ReadText(text);
      var fault := ShowDiaLogRow();
    }

    /** `ReadText`. */
    method ReadText(text: string)
      modifies this`dialogRows
      ensures dialogRows == Split(text, '\n')
    {
      dialogRows := Split(text, '\n');
    }

    /** `OnClickNext`. */
    method OnClickNext() returns (fault: Option<Fault>)
      modifies this`dialogIndex, this`nameText, this`dialogText, this`leftSprite, this`rightSprite,
        this`nextActive, this`buttons, this`effects
      ensures (Data(), fault) == Scan(dialogRows, 0, old(Data()))
    {
      fault := ShowDiaLogRow();
    }

    /** `ShowDiaLogRow`. */
    method ShowDiaLogRow() returns (fault: Option<Fault>)
      modifies this`dialogIndex, this`nameText, this`dialogText, this`leftSprite, this`rightSprite,
        this`nextActive, this`buttons, this`effects
      ensures (Data(), fault) == Scan(dialogRows, 0, old(Data()))
    {
      var i := 0;
      while i < |dialogRows|
        invariant 0 <= i <= |dialogRows|
        invariant Scan(dialogRows, i, Data()) == Scan(dialogRows, 0, old(Data()))
      {
        var step := ShowRow(i);
        if step.Stop? {
          return None;
        } else if step.Failed? {
          return Some(step.fault);
        }
        i := i + 1;
      }
      return None;
    }

    /** One pass of the `ShowDiaLogRow` loop; the step says whether the loop goes on. */
    method ShowRow(i: nat) returns (step: Step)
      requires i < |dialogRows|
      modifies this`dialogIndex, this`nameText, this`dialogText, this`leftSprite, this`rightSprite,
        this`nextActive, this`buttons, this`effects
      ensures step == RowStep(dialogRows, i, old(Data())) && Data() == step.d
    {
      var cells := Split(dialogRows[i], ',');
      if cells[0] == "#" {
        var id := IdAt(cells, 1);
        if id.Fail? {
          return Failed(Data(), id.fault);
        }
        if id.value == dialogIndex {
          step := ShowLineOf(cells);
          return;
        }
      } else if cells[0] == "&" {
        var id := IdAt(cells, 1);
        if id.Fail? {
          return Failed(Data(), id.fault);
        }
        if id.value == dialogIndex {
          nextActive := false;
          step := GenerateOption(i);
          return;
        }
      } else if cells[0] == "end" {
        var id := IdAt(cells, i);
        if id.Fail? {
          return Failed(Data(), id.fault);
        }
      }
      return Continue(Data());
    }

    /** The `#` branch of `ShowDiaLogRow`. */
    method ShowLineOf(cells: seq<string>) returns (step: Step)
      modifies this`dialogIndex, this`nameText, this`dialogText, this`leftSprite, this`rightSprite,
        this`nextActive, this`effects
      ensures step == ShowLine(cells, old(Data())) && Data() == step.d
    {
      if |cells| < 5 {
        return Failed(Data(), IndexOutOfRange);
      }
      UpdateText(cells[2], cells[4]);
      if |cells| < 9 {
        return Failed(Data(), IndexOutOfRange);
      }
      var fault := UpdateImage(cells[8], cells[3]);
      if fault.Some? {
        return Failed(Data(), fault.value);
      }
      var next := ParseInt(cells[5]);
      if next.Fail? {
        return Failed(Data(), next.fault);
      }
      dialogIndex := next.value;
      nextActive := true;
      if cells[6] != "" {
        var effect := EffectOf(cells[6]);
        if effect.Fail? {
          return Failed(Data(), effect.fault);
        }
        OptionEffect(effect.value, cells[7]);
      }
      return Stop(Data());
    }

    /** `UpdateText`. */
    method UpdateText(name: string, text: string)
      modifies this`nameText, this`dialogText
      ensures nameText == name && dialogText == text
    {
      nameText := name;
      dialogText := text;
    }

    /** `UpdateImage`; a name missing from `imageDic` raises `KeyNotFound`. */
    method UpdateImage(name: string, position: string) returns (fault: Option<Fault>)
      modifies this`leftSprite, this`rightSprite
      ensures var r := WithImage(old(Data()), name, position);
        (r.Ok? ==> fault == None && Data() == r.value) &&
        (r.Fail? ==> fault == Some(r.fault) && Data() == old(Data()))
    {
      if position == "左" {
        var k := Portrait(name);
        if k.Fail? {
          return Some(k.fault);
        }
        leftSprite := k.value;
      } else if position == "右" {
        var k := Portrait(name);
        if k.Fail? {
          return Some(k.fault);
        }
        rightSprite := k.value;
      }
      return None;
    }

    /** `OptionEffect`: the call is recorded; exits and endings reset both portraits. */
    method OptionEffect(e: Effect, target: string)
      modifies this`effects, this`leftSprite, this`rightSprite
      ensures Data() == WithEffect(old(Data()), e, target)
    {
      effects := effects + [EffectCall(e.name, e.param, target)];
      if e.name == "退场" || e.name == "结局" {
        leftSprite := EmptyPortrait;
        rightSprite := EmptyPortrait;
      }
    }

    /** `GenerateOption`. */
    method GenerateOption(index: nat) returns (step: Step)
      requires index <= |dialogRows|
      modifies this`buttons
      ensures step == Options(dialogRows, index, old(Data())) && Data() == step.d
      decreases |dialogRows| - index
    {
      if index == |dialogRows| {
        return Failed(Data(), IndexOutOfRange);
      }
      var cells := Split(dialogRows[index], ',');
      if cells[0] == "&" {
        if |cells| < 5 {
          buttons := buttons + [Unlabelled];
          return Failed(Data(), IndexOutOfRange);
        }
        buttons := buttons + [Choice(cells[4], cells)];
        step := GenerateOption(index + 1);
        return;
      }
      return Continue(Data());
    }

    /** `OnOptionClick`: jump to the chosen id, show it, then destroy every button under the
        option group, those the new line just created included. An exception in
        `ShowDiaLogRow` skips the destruction. */
    method OnOptionClick(id: int) returns (fault: Option<Fault>)
      modifies this`dialogIndex, this`nameText, this`dialogText, this`leftSprite, this`rightSprite,
        this`nextActive, this`buttons, this`effects
      ensures var (d, f) := Scan(dialogRows, 0, old(Data()).(dialogIndex := id));
        fault == f && Data() == (if f.None? then d.(buttons := []) else d)
    {
      dialogIndex := id;
      fault := ShowDiaLogRow();
      if fault.None? {
        buttons := [];
      }
    }

    /** The listener bound to a choice: its effect cell, then `OnOptionClick` with its cell 5. */
    method ClickChoice(cells: seq<string>) returns (fault: Option<Fault>)
      modifies this`dialogIndex, this`nameText, this`dialogText, this`leftSprite, this`rightSprite,
        this`nextActive, this`buttons, this`effects
      ensures var r := ChoiceOutcome(dialogRows, cells, old(Data()));
        Data() == r.0 && fault == r.1
    {
      if |cells| < 7 {
        return Some(IndexOutOfRange);
      }
      if cells[6] != "" {
        var effect := EffectOf(cells[6]);
        if effect.Fail? {
          return Some(effect.fault);
        }
        if |cells| < 8 {
          return Some(IndexOutOfRange);
        }
        OptionEffect(effect.value, cells[7]);
      }
      var id := ParseInt(cells[5]);
      if id.Fail? {
        return Some(id.fault);
      }
      fault := OnOptionClick(id.value);
    }
  }

  /** What clicking a choice with these cells does. */
  function ChoiceOutcome(rows: seq<string>, cells: seq<string>, d: DialogData): (DialogData, Option<Fault>)
  {
    if |cells| < 7 then (d, Some(IndexOutOfRange))
    else
      var effect := if cells[6] == "" then Ok(None) else
        match EffectOf(cells[6])
        case Fail(f) => Fail(f)
        case Ok(e) => if |cells| < 8 then Fail(IndexOutOfRange) else Ok(Some(e));
      if effect.Fail? then (d, Some(effect.fault))
      else
        var d1 := if effect.value.Some? then WithEffect(d, effect.value.value, cells[7]) else d;
        match ParseInt(cells[5])
        case Fail(f) => (d1, Some(f))
        case Ok(id) =>
          var (d2, f) := Scan(rows, 0, d1.(dialogIndex := id));
          (if f.None? then d2.(buttons := []) else d2, f)
  }

  // ---------------------------------------------------------------- properties

  /** Splitting then joining gives the text back, and no piece holds the separator. */
  lemma {:induction false} SplitJoin(s: string, sep: char)
    ensures Join(Split(s, sep), sep) == s
    ensures forall k :: 0 <= k < |Split(s, sep)| ==> sep !in Split(s, sep)[k]
    decreases |s|
  {
    if |s| > 0 {
      var rest := Split(s[1..], sep);
      SplitJoin(s[1..], sep);
      if s[0] == sep {
        assert Join([""] + rest, sep) == [sep] + Join(rest, sep) by {
          assert ([""] + rest)[1..] == rest;
        }
        assert [sep] + s[1..] == s;
      } else {
        var parts := [[s[0]] + rest[0]] + rest[1..];
        assert parts[1..] == rest[1..];
        assert Join(parts, sep) == [s[0]] + Join(rest, sep);
        assert [s[0]] + s[1..] == s;
        assert forall k :: 1 <= k < |parts| ==> parts[k] == rest[k];
      }
    }
  }

  /** Joining pieces that do not hold the separator and splitting again gives the pieces back,
      so `ReadText`'s rows are exactly the text's lines. */
  lemma {:induction false} JoinSplit(parts: seq<string>, sep: char)
    requires |parts| >= 1 && forall k :: 0 <= k < |parts| ==> sep !in parts[k]
    ensures Split(Join(parts, sep), sep) == parts
    decreases |parts|, |parts[0]|
  {
    var p := parts[0];
    if |p| > 0 {
      var parts' := [p[1..]] + parts[1..];
      assert parts'[1..] == parts[1..];
      assert forall k :: 0 <= k < |parts'| ==> sep !in parts'[k] by {
        assert forall c :: c in p[1..] ==> c in p;
      }
      JoinSplit(parts', sep);
      assert Join(parts, sep) == [p[0]] + Join(parts', sep);
      assert Join(parts, sep)[1..] == Join(parts', sep);
      assert [p[0]] + p[1..] == p;
      assert [[p[0]] + parts'[0]] + parts'[1..] == parts;
    } else if |parts| > 1 {
      assert parts[1..][1..] == parts[2..];
      JoinSplit(parts[1..], sep);
      assert Join(parts, sep) == [sep] + Join(parts[1..], sep);
      assert Join(parts, sep)[1..] == Join(parts[1..], sep);
      assert [""] + parts[1..] == parts;
    } else {
      assert parts == [""];
    }
  }

  /** The decimal digits of `n` denote `n`. */
  lemma {:induction false} ShowNatValue(n: nat)
    ensures DigitsValue(ShowNat(n)) == n
    decreases n
  {
    if n >= 10 {
      ShowNatValue(n / 10);
      var s := ShowNat(n);
      assert s[..|s| - 1] == ShowNat(n / 10);
    }
  }

  /** A number's decimal form has no white space at its ends. */
  lemma ShowIntTrimmed(n: int)
    ensures TrimEnd(TrimStart(ShowInt(n))) == ShowInt(n)
  {
    var s := ShowInt(n);
    if n < 0 {
      assert s[0] == '-';
    } else {
      assert IsDigit(s[0]);
    }
    assert IsDigit(s[|s| - 1]);
  }

  /** The sign and digits of every 32-bit number's decimal form read back as that number. */
  lemma ParseTrimmedShowInt(n: int)
    requires Int32Min <= n <= Int32Max
    ensures ParseTrimmed(ShowInt(n)) == Ok(n)
  {
    var s := ShowInt(n);
    if n < 0 {
      var digits := ShowNat(-n);
      ShowNatValue(-n);
      assert s == "-" + digits && s[0] == '-' && s[1..] == digits;
    } else {
      ShowNatValue(n);
      assert IsDigit(s[0]);
    }
  }

  /** `int.Parse` reads back every 32-bit number's decimal form. */
  lemma ParseShowInt(n: int)
    requires Int32Min <= n <= Int32Max
    ensures ParseInt(ShowInt(n)) == Ok(n)
  {
    ShowIntTrimmed(n);
    ParseTrimmedShowInt(n);
  }

  /** `int.Parse` ignores white space around the number, a trailing '\r' from a Windows line end
      included. */
  lemma ParseSkipsCarriageReturn(n: int)
    requires Int32Min <= n <= Int32Max
    ensures ParseInt(" " + ShowInt(n) + "\r") == Ok(n)
  {
    var s := ShowInt(n);
    var padded := " " + s + "\r";
    ShowIntTrimmed(n);
    assert TrimStart(padded) == s + "\r" by {
      assert padded[1..] == s + "\r";
      assert (s + "\r")[0] == s[0];
    }
    assert TrimEnd(s + "\r") == s by {
      assert (s + "\r")[..|s|] == s;
    }
    ParseTrimmedShowInt(n);
  }

  /** An effect cell `name@param` reads back as that effect when the name has no '@'. */
  lemma EffectCellRoundTrip(name: string, param: int)
    requires '@' !in name && Int32Min <= param <= Int32Max
    ensures EffectOf(name + "@" + ShowInt(param)) == Ok(Effect(name, param))
  {
    var t := ShowInt(param);
    ParseShowInt(param);
    assert '@' !in t by {
      if param < 0 {
        assert t == "-" + ShowNat(-param);
      }
    }
    JoinSplit([name, t], '@');
    assert Join([name, t], '@') == name + "@" + t by {
      assert [name, t][1..] == [t];
    }
  }

  /** An effect cell without '@' raises `IndexOutOfRange`. */
  lemma EffectCellNeedsSeparator(cell: string)
    requires '@' !in cell
    ensures EffectOf(cell) == Fail(IndexOutOfRange)
  {
    SplitJoin(cell, '@');
    SingletonSplit(cell, '@');
  }

  /** Text without the separator is a single piece. */
  lemma {:induction false} SingletonSplit(s: string, sep: char)
    requires sep !in s
    ensures Split(s, sep) == [s]
    decreases |s|
  {
    if |s| > 0 {
      assert sep !in s[1..] by {
        assert forall c :: c in s[1..] ==> c in s;
      }
      SingletonSplit(s[1..], sep);
      assert [s[0]] + s[1..] == s;
    }
  }

  /** The `#` branch completes exactly when the row has nine cells, a known portrait, a number in
      cell 5 and a well-formed effect cell (if any); it then shows cells 2 and 4 and jumps to the
      id in cell 5, leaving the buttons alone. When it raises, the index is unchanged unless only
      the effect cell was bad, in which case the jump has already happened. */
  lemma ShowLineOutcome(cells: seq<string>, d: DialogData)
    ensures var r := ShowLine(cells, d);
      (r.Stop? <==>
        |cells| >= 9 && WithImage(d, cells[8], cells[3]).Ok? && ParseInt(cells[5]).Ok? &&
        (cells[6] != "" ==> EffectOf(cells[6]).Ok?)) &&
      (r.Stop? ==>
        r.d.dialogIndex == ParseInt(cells[5]).value && r.d.nextActive &&
        r.d.nameText == cells[2] && r.d.dialogText == cells[4] && r.d.buttons == d.buttons) &&
      (r.Failed? ==> (
        r.d.dialogIndex == d.dialogIndex ||
        (|cells| >= 9 && cells[6] != "" && EffectOf(cells[6]).Fail? && ParseInt(cells[5]) == Ok(r.d.dialogIndex))))
  {
  }

  /** No row from `i` up to `j` (exclusive) stops the scan at index `d.dialogIndex`. */
  predicate NoStopBetween(rows: seq<string>, i: nat, j: nat, d: DialogData)
    requires j <= |rows|
  {
    forall k :: i <= k < j ==> !RowStep(rows, k, d).Stop?
  }

  /** `ShowDiaLogRow` stops at the first `#` row whose id is the current index and takes the next
      index from that row's cell 5. A scan that ends without an exception and without such a row
      leaves the index as it was. */
  lemma {:induction false} ScanFindsFirstLine(rows: seq<string>, i: nat, d: DialogData)
    requires i <= |rows|
    ensures var (r, f) := Scan(rows, i, d);
      f.None? ==>
        (NoStopBetween(rows, i, |rows|, d) && r.dialogIndex == d.dialogIndex) ||
        exists j :: i <= j < |rows| && NoStopBetween(rows, i, j, d) && RowStep(rows, j, d).Stop? &&
          Split(rows[j], ',')[0] == "#" && IdAt(Split(rows[j], ','), 1) == Ok(d.dialogIndex) &&
          r.dialogIndex == ParseInt(Split(rows[j], ',')[5]).value
    decreases |rows| - i
  {
    if i < |rows| {
      var cells := Split(rows[i], ',');
      var s := RowStep(rows, i, d);
      if s.Continue? {
        ContinueKeepsIndex(rows, i, d);
        ScanFindsFirstLine(rows, i + 1, s.d);
        var (r, f) := Scan(rows, i + 1, s.d);
        assert Scan(rows, i, d) == (r, f);
        if f.None? {
          // Stopping depends only on the index, which the continuing row kept.
          forall k | i <= k < |rows| && RowStep(rows, k, d).Stop?
            ensures k > i && RowStep(rows, k, s.d).Stop?
          {
            StopDependsOnIndex(rows, k, d, s.d);
          }
          if !NoStopBetween(rows, i + 1, |rows|, s.d) || r.dialogIndex != s.d.dialogIndex {
            var j :| i + 1 <= j < |rows| && NoStopBetween(rows, i + 1, j, s.d) && RowStep(rows, j, s.d).Stop? &&
              Split(rows[j], ',')[0] == "#" && IdAt(Split(rows[j], ','), 1) == Ok(s.d.dialogIndex) &&
              r.dialogIndex == ParseInt(Split(rows[j], ',')[5]).value;
            StopDependsOnIndex(rows, j, s.d, d);
            assert NoStopBetween(rows, i, j, d);
          } else {
            assert NoStopBetween(rows, i, |rows|, d);
          }
        }
      } else if s.Stop? {
        StopIsALine(rows, i, d);
        assert s == ShowLine(cells, d);
        ShowLineOutcome(cells, d);
        assert NoStopBetween(rows, i, i, d);
      }
    }
  }

  /** Only the `#` branch stops the scan. */
  lemma StopIsALine(rows: seq<string>, i: nat, d: DialogData)
    requires i < |rows| && RowStep(rows, i, d).Stop?
    ensures Split(rows[i], ',')[0] == "#" && IdAt(Split(rows[i], ','), 1) == Ok(d.dialogIndex)
  {
  }

  /** Rows that let the scan go on leave the index alone. */
  lemma ContinueKeepsIndex(rows: seq<string>, i: nat, d: DialogData)
    requires i < |rows| && RowStep(rows, i, d).Continue?
    ensures RowStep(rows, i, d).d.dialogIndex == d.dialogIndex
  {
    var cells := Split(rows[i], ',');
    if cells[0] == "&" && IdAt(cells, 1) == Ok(d.dialogIndex) {
      OptionsKeepIndex(rows, i, d.(nextActive := false));
    }
  }

  /** Whether a row stops the scan depends only on the current index. */
  lemma StopDependsOnIndex(rows: seq<string>, i: nat, d: DialogData, e: DialogData)
    requires i < |rows| && d.dialogIndex == e.dialogIndex && RowStep(rows, i, d).Stop?
    ensures RowStep(rows, i, e).Stop?
  {
    StopIsALine(rows, i, d);
    var cells := Split(rows[i], ',');
    assert RowStep(rows, i, d) == ShowLine(cells, d);
    ShowLineStopsAlike(cells, d, e);
  }

  lemma ShowLineStopsAlike(cells: seq<string>, d: DialogData, e: DialogData)
    requires ShowLine(cells, d).Stop?
    ensures ShowLine(cells, e).Stop?
  {
  }

  /** Generating options touches only the buttons. */
  lemma {:induction false} OptionsKeepIndex(rows: seq<string>, k: nat, d: DialogData)
    requires k <= |rows|
    ensures Options(rows, k, d).d == d.(buttons := Options(rows, k, d).d.buttons)
    decreases |rows| - k
  {
    if k < |rows| {
      var cells := Split(rows[k], ',');
      if cells[0] == "&" && |cells| >= 5 {
        OptionsKeepIndex(rows, k + 1, d.(buttons := d.buttons + [Choice(cells[4], cells)]));
      }
    }
  }

  /** A row that `GenerateOption` turns into a bound choice. */
  predicate IsOptionRow(row: string)
  {
    var cells := Split(row, ',');
    cells[0] == "&" && |cells| >= 5
  }

  /** Rows `k` to `k + n - 1` are all option rows. */
  predicate OptionRun(rows: seq<string>, k: nat, n: nat)
    decreases n
  {
    n == 0 || (k < |rows| && IsOptionRow(rows[k]) && OptionRun(rows, k + 1, n - 1))
  }

  /** The choices a run of option rows stands for. */
  function Choices(rows: seq<string>, k: nat, n: nat): (r: seq<OptionButton>)
    requires OptionRun(rows, k, n)
    ensures |r| == n
    decreases n
  {
    if n == 0 then []
    else
      var cells := Split(rows[k], ',');
      [Choice(cells[4], cells)] + Choices(rows, k + 1, n - 1)
  }

  /** `GenerateOption` adds one bound choice per consecutive `&` row, ignoring their ids, and
      raises `IndexOutOfRange` when that run reaches the end of the script. */
  lemma {:induction false} OptionsForRun(rows: seq<string>, k: nat, n: nat, d: DialogData)
    requires k + n <= |rows| && OptionRun(rows, k, n)
    ensures var b := Options(rows, k, d).d.buttons;
      |b| >= |d.buttons| + n && b[|d.buttons|..|d.buttons| + n] == Choices(rows, k, n)
    ensures k + n == |rows| ==> Options(rows, k, d).Failed? && Options(rows, k, d).fault == IndexOutOfRange
    decreases n
  {
    OptionsKeepButtons(rows, k, d);
    if n > 0 {
      var cells := Split(rows[k], ',');
      var d1 := d.(buttons := d.buttons + [Choice(cells[4], cells)]);
      var r := Options(rows, k + 1, d1);
      assert Options(rows, k, d) == r;
      OptionsForRun(rows, k + 1, n - 1, d1);
      OptionsKeepButtons(rows, k + 1, d1);
      var b := r.d.buttons;
      var m := |d.buttons|;
      assert b[m] == b[..m + 1][m] == Choice(cells[4], cells);
      assert Choices(rows, k, n) == [Choice(cells[4], cells)] + Choices(rows, k + 1, n - 1);
      SliceCons(b, m, n);
    }
  }

  /** A slice is its first element followed by the rest. */
  lemma SliceCons<T>(b: seq<T>, m: nat, n: nat)
    requires 0 < n && m + n <= |b|
    ensures b[m..m + n] == [b[m]] + b[m + 1..m + n]
  {
  }

  /** Generating options only appends buttons. */
  lemma {:induction false} OptionsKeepButtons(rows: seq<string>, k: nat, d: DialogData)
    requires k <= |rows|
    ensures var b := Options(rows, k, d).d.buttons;
      |b| >= |d.buttons| && b[..|d.buttons|] == d.buttons
    decreases |rows| - k
  {
    if k < |rows| {
      var cells := Split(rows[k], ',');
      if cells[0] == "&" && |cells| >= 5 {
        var d1 := d.(buttons := d.buttons + [Choice(cells[4], cells)]);
        OptionsKeepButtons(rows, k + 1, d1);
        var b := Options(rows, k, d).d.buttons;
        assert b[..|d.buttons|] == b[..|d1.buttons|][..|d.buttons|];
      }
    }
  }

  /** The `end` branch indexes the row's cells with the row number: an `end` row with fewer
      cells than its row number raises `IndexOutOfRange` whatever the current index. */
  lemma EndRowUsesRowNumber(rows: seq<string>, i: nat, d: DialogData)
    requires i < |rows| && Split(rows[i], ',')[0] == "end" && |Split(rows[i], ',')| <= i
    ensures RowStep(rows, i, d) == Failed(d, IndexOutOfRange)
  {
  }
}
