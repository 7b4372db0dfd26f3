/** The "Add Script" dialog: the script form (name, market, emoji), the market form,
    the emoji picker and the fetched market list. Each request's answer is reduced to
    the `error` flag of its body. */
module AddScript {
  import opened Common

  /** `ScriptSchema`. `marketId` is `Market.connect.id`. */
  datatype ScriptData = ScriptData(name: string, marketId: int, emoji: string, marketName: string)

  const InitialScriptData := ScriptData("", 0, "", "")

  /** The body of the create-script request: every field but `marketName`. */
  datatype ScriptPayload = ScriptPayload(name: string, marketId: int, emoji: string)

  /** `const { marketName, ...data } = scriptData` */
  function Payload(d: ScriptData): (p: ScriptPayload)
    ensures WithMarketName(p, d.marketName) == d
  {
    ScriptPayload(d.name, d.marketId, d.emoji)
  }

  /** A payload put back together with a market name. */
  function WithMarketName(p: ScriptPayload, marketName: string): ScriptData {
    ScriptData(p.name, p.marketId, p.emoji, marketName)
  }

  /** The payload loses exactly the market name: any payload comes back from a form
      built on it, and two forms have the same payload exactly when they differ at
      most in the market name. */
  lemma PayloadDropsOnlyMarketName(d: ScriptData, e: ScriptData, p: ScriptPayload, marketName: string)
    ensures Payload(WithMarketName(p, marketName)) == p
    ensures Payload(d) == Payload(e) <==> d.(marketName := "") == e.(marketName := "")
  {
  }

  /** The market select: the first market of the fetched list with the chosen name
      gives `Market.connect.id`, and the chosen name is kept as `marketName`; an
      unknown name, or a list not fetched yet, leaves the form as it is. */
  function SelectMarket(d: ScriptData, markets: Option<seq<Entry>>, name: string): (r: ScriptData)
    ensures markets.None? || !HasName(markets.value, name) ==> r == d
    ensures markets.Some? && HasName(markets.value, name) ==>
              exists i :: IsFirstWithName(markets.value, name, i) &&
                          r == d.(marketId := markets.value[i].id, marketName := name)
  {
    match markets
    case None => d
    case Some(list) =>
      match FindByName(list, name)
      case None => d
      case Some(market) => d.(marketId := market.id, marketName := name)
  }

  /** The component state of the dialog. `marketFormName` is `marketData.name`. */
  class AddScriptForm {
    var scriptData: ScriptData
    var showEmojiPicker: bool
    var marketFormName: string
    var markets: Option<seq<Entry>>

    constructor ()
      ensures scriptData == InitialScriptData && !showEmojiPicker
      ensures marketFormName == "" && markets == None
    {
      scriptData := InitialScriptData;
      showEmojiPicker := false;
      marketFormName := "";
      markets := None;
    }

    /** `getMarkets`: the list is replaced only by an answer without error. */
    method GetMarkets(error: bool, fetched: Option<seq<Entry>>)
      modifies this`markets
      ensures markets == if error then old(markets) else fetched
    {
      if !error {
        markets := fetched;
      }
    }

    /** The name box: only `name` changes. */
    method OnNameChange(value: string)
      modifies this`scriptData
      ensures scriptData == old(scriptData).(name := value)
    {
      scriptData := scriptData.(name := value);
    }

    method OnMarketChange(name: string)
      modifies this`scriptData
      ensures scriptData == SelectMarket(old(scriptData), markets, name)
    {
      scriptData := SelectMarket(scriptData, markets, name);
    }

    /** The picker button opens a closed picker and closes an open one. */
    method TogglePicker()
      modifies this`showEmojiPicker
      ensures showEmojiPicker == !old(showEmojiPicker)
    {
      showEmojiPicker := !showEmojiPicker;
    }

    /** `onEmojiSelect`: only `emoji` changes, to the unified code of the chosen
        emoji, and the picker closes. */
    method OnEmojiSelect(unified: string)
      modifies this`scriptData, this`showEmojiPicker
      ensures scriptData == old(scriptData).(emoji := unified)
      ensures !showEmojiPicker
    {
      scriptData := scriptData.(emoji := unified);
      showEmojiPicker := false;
    }

    /** `handleScript`: the payload sent is the form without the market name; a
        success resets the form, an error keeps it. */
    method HandleScript(error: bool) returns (sent: ScriptPayload)
      modifies this`scriptData
      ensures sent == Payload(old(scriptData))
      ensures scriptData == if error then old(scriptData) else InitialScriptData
    {
      sent := Payload(scriptData);
      if !error {
        scriptData := InitialScriptData;
      }
    }

    /** The market name box: `setMarketData({ name: value })`. */
    method OnMarketFormNameChange(value: string)
      modifies this`marketFormName
      ensures marketFormName == value
    {
      marketFormName := value;
    }

    /** `handleMarket`: the market form is sent; a success clears its name and asks
        for the market list again, an error keeps the form and asks for nothing. */
    method HandleMarket(error: bool) returns (sent: string, refetchMarkets: bool)
      modifies this`marketFormName
      ensures sent == old(marketFormName)
      ensures marketFormName == if error then old(marketFormName) else ""
      ensures refetchMarkets == !error
    {
      sent := marketFormName;
      refetchMarkets := !error;
      if !error {
        marketFormName := "";
      }
    }
  }
}
