/** The admin home page's creation dialog: a script form (name and market) and a
    signal form of the same shape as the "Add Signal" dialog's. Each request's answer
    is reduced to the `error` flag of its body. */
module AdminHome {
  import opened Common
  import AddSignal

  /** The script form: a name and a market name. */
  datatype ScriptForm = ScriptForm(name: string, market: string)

  const InitialScriptForm := ScriptForm("", "Forex")

  /** The component state of the page's dialog. */
  class AdminHomePage {
    var scriptData: ScriptForm
    var signalData: AddSignal.SignalData
    var scriptDataList: Option<seq<Entry>>

    constructor ()
      ensures scriptData == InitialScriptForm
      ensures signalData == AddSignal.InitialSignalData && scriptDataList == None
    {
      scriptData := InitialScriptForm;
      signalData := AddSignal.InitialSignalData;
      scriptDataList := None;
    }

    /** `setScriptDataList(res.data)` once the script list has been fetched. */
    method GetScriptData(fetched: Option<seq<Entry>>)
      modifies this`scriptDataList
      ensures scriptDataList == fetched
    {
      scriptDataList := fetched;
    }

    /** The name box of the script form: only `name` changes. */
    method OnScriptNameChange(value: string)
      modifies this`scriptData
      ensures scriptData.name == value && scriptData.market == old(scriptData.market)
    {
      scriptData := scriptData.(name := value);
    }

    /** The market select of the script form: only `market` changes. */
    method OnScriptMarketChange(value: string)
      modifies this`scriptData
      ensures scriptData.market == value && scriptData.name == old(scriptData.name)
    {
      scriptData := scriptData.(market := value);
    }

    /** `handleScript`: the whole script form is sent; a success resets it to an
        empty name on "Forex", an error keeps it. The script list is fetched again
        in both cases. */
    method HandleScript(error: bool) returns (sent: ScriptForm, refetchScripts: bool)
      modifies this`scriptData
      ensures sent == old(scriptData)
      ensures scriptData == if error then old(scriptData) else InitialScriptForm
      ensures refetchScripts
    {
      sent := scriptData;
      if !error {
        scriptData := InitialScriptForm;
      }
      refetchScripts := true;
    }

    method OnScriptChange(name: string)
      modifies this`signalData
      ensures signalData == AddSignal.SelectScript(old(signalData), scriptDataList, name)
    {
      signalData := AddSignal.SelectScript(signalData, scriptDataList, name);
    }

    method OnTypeChange(value: string)
      modifies this`signalData
      ensures signalData == AddSignal.ChooseAction(old(signalData), value)
    {
      signalData := AddSignal.ChooseAction(signalData, value);
    }

    method OnStatusChange(value: string)
      modifies this`signalData
      ensures signalData == AddSignal.ChooseStatus(old(signalData), value)
    {
      signalData := AddSignal.ChooseStatus(signalData, value);
    }

    /** A number box: `{ ...signalData, [key]: Number(value) }`. */
    method OnNumberChange(input: NumberInput, key: AddSignal.NumericField)
      modifies this`signalData
      ensures signalData == AddSignal.WithNumber(old(signalData), key, ReadNumber(input))
    {
      signalData := AddSignal.WithNumber(signalData, key, ReadNumber(input));
    }

    /** `handleSignal`: the whole signal form is sent, script name included; a
        success resets the form, an error keeps it. */
    method HandleSignal(error: bool) returns (sent: AddSignal.SignalData)
      modifies this`signalData
      ensures sent == old(signalData)
      ensures signalData == if error then old(signalData) else AddSignal.InitialSignalData
    {
      sent := signalData;
      if !error {
        signalData := AddSignal.InitialSignalData;
      }
    }
  }
}
