/** The inline keyboards of the rest booking dialogue (`KeyboardService`)
    and the callback data that drives the dialogue. A keyboard is its rows
    of buttons; every button carries a label and the callback data sent
    back when it is pressed. */
module RestKeyboards {
  import opened Wrappers
  import PyStr

  datatype Button = Button(text: string, callbackData: string)

  type Keyboard = seq<seq<Button>>

  const Cancel := Button("✖️ Отмена", "rest:cancel")
  const Back := Button("◀ Назад", "rest:start")
  const LongerRest := Button("🤔 до 4-х недель", "rest:longer_rest")
  const Confirm := Button("✅ Подтвердить", "rest:confirm")
  const IndexError := "IndexError: list index out of range"

  function Mark(available: bool): (m: char)
    ensures m == '✅' || m == '❌'
  {
    if available then '✅' else '❌'
  }

  function Flag(available: bool): (f: char)
    ensures f == 's' || f == 'f'
  {
    if available then 's' else 'f'
  }

  /** An option button: its label is the availability mark and a caption,
      its data "rest:" followed by the kind, the number and 's' or 'f'. */
  function OptionButton(caption: string, kind: char, number: char, available: bool): (b: Button)
  {
    Button([Mark(available)] + " " + caption, "rest:" + [kind, number, Flag(available)])
  }

  /** `first_ikbm`: this week and next week as start options, then Cancel.
      Reading both flags fails on a shorter list. */
  function FirstIkbm(options: seq<bool>): (r: Result<Keyboard, string>)
    ensures r.Err? <==> |options| < 2
  {
    if |options| < 2 then Err(IndexError)
    else Ok([
      [OptionButton("С этой", 's', '0', options[0]), OptionButton("Со следующей", 's', '1', options[1])],
      [Cancel]])
  }

  /** `second_ikbm`: one or two weeks as durations, the longer-rest button,
      then Back and Cancel. */
  function SecondIkbm(options: seq<bool>): (r: Result<Keyboard, string>)
    ensures r.Err? <==> |options| < 2
  {
    if |options| < 2 then Err(IndexError)
    else Ok([
      [OptionButton("1 неделя", 'd', '1', options[0]), OptionButton("2 недели", 'd', '2', options[1])],
      [LongerRest],
      [Back, Cancel]])
  }

  /** `reject_ikbm`: only Back and Cancel. */
  function RejectIkbm(): (k: Keyboard)
    ensures |k| == 1 && Cancel in k[0] && Back in k[0]
  {
    [[Back, Cancel]]
  }

  /** `confirm_rest_ikbm`: Confirm, then a Back button that re-chooses the
      start week `starts` as an available option, and Cancel. */
  function ConfirmIkbm(starts: int): (k: Keyboard)
    ensures |k| == 2 && k[0] == [Confirm] && |k[1]| == 2 && k[1][1] == Cancel
    ensures var data := k[1][0].callbackData;
            k[1][0].text == Back.text && |data| >= 8 && data[..6] == "rest:s" && data[|data| - 1] == 's' &&
            k[1][0] != Back
  {
    [[Confirm],
     [Button("◀ Назад", "rest:s" + PyStr.IntToString(starts) + "s"), Cancel]]
  }

  /** A choice read from callback data: the kind ('s' start week, 'd'
      duration), its number and whether it was marked available. */
  datatype Choice = Choice(kind: char, number: nat, available: bool)

  /** The option handler's filter: the data begins with "rest:", one of
      's'/'d', a digit 0 to 2 and one of 's'/'f' (a match anchored at the
      start only). */
  predicate IsChoiceData(data: string)
  {
    |data| >= 8 && data[..5] == "rest:" && (data[5] == 's' || data[5] == 'd') &&
    '0' <= data[6] <= '2' && (data[7] == 's' || data[7] == 'f')
  }

  /** What the option handler reads from matching data: the text after the
      first ':' gives the kind at position 0, `int` of position 1 and
      availability at position 2. */
  function DecodeChoice(data: string): (c: Option<Choice>)
    ensures c.Some? <==> IsChoiceData(data)
    ensures c.Some? ==> c.value.number <= 2 && c.value.kind == data[5] && (c.value.available <==> data[7] == 's')
  {
    if IsChoiceData(data) then Some(Choice(data[5], PyStr.DigitValue(data[6]), data[7] == 's'))
    else None
  }

  /** The label of an option button is marked ✅ exactly when its data ends
      in 's' and ❌ exactly when it ends in 'f'. */
  predicate MarkedAsData(b: Button)
  {
    |b.text| >= 1 && |b.callbackData| >= 1 &&
    (b.text[0] == '✅' <==> b.callbackData[|b.callbackData| - 1] == 's') &&
    (b.text[0] == '❌' <==> b.callbackData[|b.callbackData| - 1] == 'f')
  }

  lemma OptionButtonDecodes(caption: string, kind: char, number: nat, available: bool)
    requires (kind == 's' || kind == 'd') && number <= 2
    ensures DecodeChoice(OptionButton(caption, kind, PyStr.DigitChar(number), available).callbackData)
              == Some(Choice(kind, number, available))
    ensures MarkedAsData(OptionButton(caption, kind, PyStr.DigitChar(number), available))
  {
    var b := OptionButton(caption, kind, PyStr.DigitChar(number), available);
    assert b.callbackData[..5] == "rest:";
    assert PyStr.DigitValue(PyStr.DigitChar(number)) == number by {
      var c := PyStr.DigitChar(number);
      assert PyStr.DigitChar(PyStr.DigitValue(c)) == c;
    }
  }

  /** The start buttons decode to start weeks 0 and 1 with the given
      availability, their labels agree with their data, and the keyboard
      offers Cancel. */
  lemma FirstIkbmChoices(options: seq<bool>)
    requires |options| >= 2
    ensures var k := FirstIkbm(options).value;
            |k| == 2 && |k[0]| == 2 && Cancel in k[1] &&
            (forall i :: 0 <= i < 2 ==>
              DecodeChoice(k[0][i].callbackData) == Some(Choice('s', i, options[i])) && MarkedAsData(k[0][i]))
  {
    OptionButtonDecodes("С этой", 's', 0, options[0]);
    OptionButtonDecodes("Со следующей", 's', 1, options[1]);
    assert PyStr.DigitChar(0) == '0' && PyStr.DigitChar(1) == '1';
  }

  /** The duration buttons decode to one and two weeks with the given
      availability, their labels agree with their data, and the keyboard
      offers Back and Cancel. */
  lemma SecondIkbmChoices(options: seq<bool>)
    requires |options| >= 2
    ensures var k := SecondIkbm(options).value;
            |k| == 3 && |k[0]| == 2 && Cancel in k[2] && Back in k[2] &&
            (forall i :: 0 <= i < 2 ==>
              DecodeChoice(k[0][i].callbackData) == Some(Choice('d', i + 1, options[i])) && MarkedAsData(k[0][i]))
  {
    OptionButtonDecodes("1 неделя", 'd', 1, options[0]);
    OptionButtonDecodes("2 недели", 'd', 2, options[1]);
    assert PyStr.DigitChar(1) == '1' && PyStr.DigitChar(2) == '2';
  }

  /** The confirm keyboard's Back button re-chooses start week `starts`
      as available, and Cancel sits beside it rather than in the top row. */
  lemma ConfirmBackDecodes(starts: int)
    requires 0 <= starts <= 2
    ensures var k := ConfirmIkbm(starts);
            |k| == 2 && DecodeChoice(k[1][0].callbackData) == Some(Choice('s', starts, true)) &&
            Cancel in k[1] && Cancel !in k[0]
  {
    var data := ConfirmIkbm(starts)[1][0].callbackData;
    assert PyStr.NatToString(starts) == [PyStr.DigitChar(starts)];
    assert data == "rest:" + ['s', PyStr.DigitChar(starts), 's'];
    OptionButtonDecodes("", 's', starts, true);
  }
}
