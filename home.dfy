/** The model selector of the home page: choosing a model asks the backend's
    `/model_def` to switch, and the choice is reset when that fails. */
module Home {
  import opened Common
  import Backend

  /** How `setModelDefinition` ends: the JSON reply of `/model_def`, or a
      transport failure (the fetch or the JSON decoding threw). */
  datatype ModelReply = Replied(status: string, message: Option<string>) | TransportFailed

  const CommunicationFailed := "Failed to communicate with the server. Please try again."
  const SwitchFailed := "Failed to switch model. Please try again."

  /** The reply the page receives when the backend answers with `r`. */
  function FromBackend(r: Backend.ModResponse): ModelReply {
    Replied(r.status, Some(r.message))
  }

  /** The error `handleModelChange` shows for a reply, if any. */
  function ModelError(reply: ModelReply): (e: Option<string>)
    ensures reply.TransportFailed? ==> e == Some(CommunicationFailed)
    ensures reply.Replied? ==> (e.Some? <==> reply.status == "error")
    ensures reply.Replied? && reply.status == "error" ==> e == Some(OrElse(reply.message, SwitchFailed))
    ensures e.Some? ==> e.value != ""
  {
    match reply
    case TransportFailed => Some(CommunicationFailed)
    case Replied(status, message) =>
      if status == "error" then Some(OrElse(message, SwitchFailed)) else None
  }

  class Page {
    var currentModel: string
    var error: Option<string>
    var isLoading: bool

    constructor ()
      ensures currentModel == "" && error == None && !isLoading
    {
      currentModel := "";
      error := None;
      isLoading := false;
    }

    /** `renderSuccess`: the banner shows a chosen model once the switch settled without error. */
    predicate ShowsSuccess()
      reads this
    {
      currentModel != "" && error.None? && !isLoading
    }

    /** `handleModelChange`: the empty option changes nothing and sends
        nothing; any other choice is sent, and is kept only when the reply
        is not an error. */
    method HandleModelChange(selected: string, reply: ModelReply) returns (request: Option<string>)
      modifies this`currentModel, this`isLoading, this`error
      ensures selected == "" ==>
                request == None && currentModel == old(currentModel)
                && error == old(error) && isLoading == old(isLoading)
      ensures selected != "" ==> request == Some(selected) && !isLoading && error == ModelError(reply)
      ensures selected != "" ==> currentModel == if error.Some? then "" else selected
    {
      if selected == "" {
        return None;
      }
      currentModel := selected;
      isLoading := true;
      error := None;
      request := Some(selected);
      match reply {
        case TransportFailed =>
          error := Some(CommunicationFailed);
          currentModel := "";
        case Replied(status, message) =>
          if status == "error" {
            error := Some(OrElse(message, SwitchFailed));
            currentModel := "";
          }
      }
      isLoading := false;
    }
  }

  /** Against the modelled backend, exactly the two offered models switch
      without error; any other name shows the backend's invalid-model message. */
  lemma OfferedModelsSucceed(name: string)
    requires name != ""
    ensures ModelError(FromBackend(Backend.ModelDefReply(name))).None? <==>
              name == Backend.LlamaModel || name == Backend.OpenAIModel
    ensures name != Backend.LlamaModel && name != Backend.OpenAIModel ==>
              ModelError(FromBackend(Backend.ModelDefReply(name)))
                == Some("Invalid model name: " + name + ". Must be 'Llama Meta' or 'OpenAI'")
  {
  }

  /** Choosing either offered model, answered by the backend, leaves the
      success banner on with that model. */
  method OfferedModelShowsSuccess(name: string) returns (p: Page)
    requires name == Backend.LlamaModel || name == Backend.OpenAIModel
    ensures fresh(p) && p.ShowsSuccess() && p.currentModel == name
  {
    p := new Page();
    OfferedModelsSucceed(name);
    var request := p.HandleModelChange(name, FromBackend(Backend.ModelDefReply(name)));
  }
}
