/** The "Add Signal" dialog: the signal form state, its `onChange` handlers, the
    request payload and what a response does to the form. The POST itself is
    outside the model; its answer is reduced to the `error` flag of the body. */
module AddSignal {
  import opened Common
  import Markets

  /** `SignalSchema`. `scriptId` is `Script.connect.id`, `callType` is `type`;
      prices are abstracted to `int`. */
  datatype SignalData = SignalData(
    scriptId: int, ltp: int, callType: string,
    target1: int, target2: int, target3: int,
    status: string, buyRange: int, stopLoss: int,
    selectedScriptName: string)

  const InitialSignalData := SignalData(0, 0, "", 0, 0, 0, "", 0, 0, "")

  /** The placeholder texts of the two selects. The handlers refuse a value equal to
      this text; the rendered select offers its placeholder as an option with the
      empty value, and choosing it stores "" like any other value. */
  const ActionPlaceholder := "Select the Action"
  const StatusPlaceholder := "Select the Status"

  /** The options of the status select. */
  const StatusOptions := ["Open", "Close"]

  /** The body of the create-signal request: every field but `selectedScriptName`. */
  datatype SignalPayload = SignalPayload(
    scriptId: int, ltp: int, callType: string,
    target1: int, target2: int, target3: int,
    status: string, buyRange: int, stopLoss: int)

  /** `const { selectedScriptName, ...dataToSend } = signalData` */
  function Payload(d: SignalData): (p: SignalPayload)
    ensures WithScriptName(p, d.selectedScriptName) == d
  {
    SignalPayload(d.scriptId, d.ltp, d.callType, d.target1, d.target2, d.target3, d.status, d.buyRange, d.stopLoss)
  }

  /** A payload put back together with a script name. */
  function WithScriptName(p: SignalPayload, name: string): SignalData {
    SignalData(p.scriptId, p.ltp, p.callType, p.target1, p.target2, p.target3, p.status, p.buyRange, p.stopLoss, name)
  }

  /** The payload loses exactly the script name: any payload comes back from a form
      built on it, and two forms have the same payload exactly when they differ at
      most in the script name. */
  lemma PayloadDropsOnlyScriptName(d: SignalData, e: SignalData, p: SignalPayload, name: string)
    ensures Payload(WithScriptName(p, name)) == p
    ensures Payload(d) == Payload(e) <==> d.(selectedScriptName := "") == e.(selectedScriptName := "")
  {
  }

  /** The keys `handleSignalNumberChange` is called with. */
  datatype NumericField = Ltp | Target1 | Target2 | Target3 | BuyRange | StopLoss

  function NumberOf(d: SignalData, key: NumericField): int {
    match key
    case Ltp => d.ltp
    case Target1 => d.target1
    case Target2 => d.target2
    case Target3 => d.target3
    case BuyRange => d.buyRange
    case StopLoss => d.stopLoss
  }

  /** `{ ...signalData, [key]: value }` for a numeric key: that key takes `value`,
      every other numeric key and every other field is unchanged. */
  function WithNumber(d: SignalData, key: NumericField, value: int): (r: SignalData)
    ensures NumberOf(r, key) == value
    ensures forall k :: k != key ==> NumberOf(r, k) == NumberOf(d, k)
    ensures r.scriptId == d.scriptId && r.callType == d.callType && r.status == d.status
    ensures r.selectedScriptName == d.selectedScriptName
  {
    match key
    case Ltp => d.(ltp := value)
    case Target1 => d.(target1 := value)
    case Target2 => d.(target2 := value)
    case Target3 => d.(target3 := value)
    case BuyRange => d.(buyRange := value)
    case StopLoss => d.(stopLoss := value)
  }

  /** The script select: the first script of the fetched list with the chosen name
      gives `Script.connect.id` and `selectedScriptName`; an unknown name, or a list
      not fetched yet, leaves the form as it is. */
  function SelectScript(d: SignalData, scripts: Option<seq<Entry>>, name: string): (r: SignalData)
    ensures scripts.None? || !HasName(scripts.value, name) ==> r == d
    ensures scripts.Some? && HasName(scripts.value, name) ==>
              exists i :: IsFirstWithName(scripts.value, name, i) &&
                          r == d.(scriptId := scripts.value[i].id, selectedScriptName := name)
  {
    match scripts
    case None => d
    case Some(list) =>
      match FindByName(list, name)
      case None => d
      case Some(script) => d.(scriptId := script.id, selectedScriptName := script.name)
  }

  /** The type select: a value equal to the placeholder text is refused, any other
      value (the empty one included) replaces `type` only. */
  function ChooseAction(d: SignalData, value: string): (r: SignalData)
    ensures value == ActionPlaceholder ==> r == d
    ensures value != ActionPlaceholder ==> r.callType == value && r.(callType := d.callType) == d
  {
    if value != ActionPlaceholder then d.(callType := value) else d
  }

  /** The status select: a value equal to the placeholder text is refused, any other
      value (the empty one included) replaces `status` only. */
  function ChooseStatus(d: SignalData, value: string): (r: SignalData)
    ensures value == StatusPlaceholder ==> r == d
    ensures value != StatusPlaceholder ==> r.status == value && r.(status := d.status) == d
  {
    if value != StatusPlaceholder then d.(status := value) else d
  }

  /** A signal created with the "Close" option of the status select never shows up on
      the markets page, which lists only "Open" and "Closed" signals. */
  lemma {:induction false} CloseOptionNeverListed(d: SignalData, data: seq<Markets.Item>, marketType: string, action: string, x: Markets.Item)
    requires x.latestSignal.status == Payload(ChooseStatus(d, StatusOptions[1])).status
    ensures x !in Markets.Filter(data, Markets.Open, marketType, action)
    ensures x !in Markets.Filter(data, Markets.Closed, marketType, action)
  {
    Markets.OtherStatusNeverListed(data, marketType, action, x);
  }

  /** The component state of the dialog. */
  class AddSignalForm {
    var signalData: SignalData
    var scriptDataList: Option<seq<Entry>>

    constructor ()
      ensures signalData == InitialSignalData && scriptDataList == None
    {
      signalData := InitialSignalData;
      scriptDataList := None;
    }

    /** `setScriptDataList(res.data)` once the script list has been fetched. */
    method GetScriptData(fetched: Option<seq<Entry>>)
      modifies this`scriptDataList
      ensures scriptDataList == fetched
    {
      scriptDataList := fetched;
    }

    method OnScriptChange(name: string)
      modifies this`signalData
      ensures signalData == SelectScript(old(signalData), scriptDataList, name)
    {
      signalData := SelectScript(signalData, scriptDataList, name);
    }

    method OnTypeChange(value: string)
      modifies this`signalData
      ensures signalData == ChooseAction(old(signalData), value)
    {
      signalData := ChooseAction(signalData, value);
    }

    method OnStatusChange(value: string)
      modifies this`signalData
      ensures signalData == ChooseStatus(old(signalData), value)
    {
      signalData := ChooseStatus(signalData, value);
    }

    /** `handleSignalNumberChange`: an empty box stores 0. */
    method HandleSignalNumberChange(input: NumberInput, key: NumericField)
      modifies this`signalData
      ensures signalData == WithNumber(old(signalData), key, ReadNumber(input))
      ensures input.Blank? ==> NumberOf(signalData, key) == 0
    {
      signalData := WithNumber(signalData, key, ReadNumber(input));
    }

    /** What a numeric box shows: a stored 0 is an empty box. */
    function Displayed(key: NumericField): (shown: NumberInput)
      reads this
      ensures shown.Blank? <==> NumberOf(signalData, key) == 0
      ensures ReadNumber(shown) == NumberOf(signalData, key)
    {
      Shown(NumberOf(signalData, key))
    }

    /** `handleSignal`: the payload sent is the form without the script name; a
        success resets the form, an error keeps it for another try. */
    method HandleSignal(error: bool) returns (sent: SignalPayload)
      modifies this`signalData
      ensures sent == Payload(old(signalData))
      ensures signalData == if error then old(signalData) else InitialSignalData
    {
      sent := Payload(signalData);
      if !error {
        signalData := InitialSignalData;
      }
    }
  }
}
