/**
 * The agent configuration form (`ConfigurationModal`): an API key that must
 * not be blank, and optional GitHub owner, repository and branch.
 */
module ConfigurationModal {
  import opened Results
  import Text

  datatype ConfigurationData = ConfigurationData(apiKey: string, githubOwner: string, githubRepo: string, githubBranch: string)

  const ApiKeyRequired: string := "API Key is required to use the agent."

  /**
   * The form's one validation: the key must hold a character that is not
   * whitespace; the form passes unchanged, untrimmed, the GitHub fields unchecked.
   */
  function Validate(form: ConfigurationData): (r: Result<ConfigurationData, string>)
    ensures r.Ok? <==> exists i :: 0 <= i < |form.apiKey| && !Text.IsJsSpace(form.apiKey[i])
    ensures r.Ok? ==> r.value == form
    ensures r.Err? ==> r.error == ApiKeyRequired
  {
    Text.BlankIffAllSpace(form.apiKey);
    if Text.IsBlank(form.apiKey) then Err(ApiKeyRequired) else Ok(form)
  }

  /** The two ways out of the modal other than saving: a click on the backdrop, and the X in its header. */
  datatype Dismissal = Backdrop | CloseButton

  /** The X is rendered only when the modal is not mandatory. */
  predicate ShowsCloseButton(isMandatory: bool) {
    !isMandatory
  }

  class ConfigurationModal {
    var formData: ConfigurationData
    var error: string

    /** `useState(initialData)`, `useState("")` */
    constructor (initialData: ConfigurationData)
      ensures formData == initialData && error == ""
    {
      formData := initialData;
      error := "";
    }

    /** The effect that runs whenever `initialData` or `isOpen` changes: the form is reset, the error is kept. */
    method Reset(initialData: ConfigurationData)
      modifies this
      ensures formData == initialData && error == old(error)
    {
      formData := initialData;
    }

    /** Editing the key clears the error. */
    method EditApiKey(value: string)
      modifies this
      ensures formData == old(formData).(apiKey := value) && error == ""
    {
      formData := formData.(apiKey := value);
      error := "";
    }

    method EditOwner(value: string)
      modifies this
      ensures formData == old(formData).(githubOwner := value) && error == old(error)
    {
      formData := formData.(githubOwner := value);
    }

    method EditRepo(value: string)
      modifies this
      ensures formData == old(formData).(githubRepo := value) && error == old(error)
    {
      formData := formData.(githubRepo := value);
    }

    method EditBranch(value: string)
      modifies this
      ensures formData == old(formData).(githubBranch := value) && error == old(error)
    {
      formData := formData.(githubBranch := value);
    }

    /**
     * A dismissal gesture. The backdrop's handler is `!isMandatory && onClose()`;
     * the X calls `onClose`, but exists only when it is shown. Whether `onClose`
     * runs comes back; the form and the error are untouched.
     */
    method Dismiss(isMandatory: bool, via: Dismissal) returns (callsOnClose: bool)
      ensures callsOnClose <==> !isMandatory
    {
      match via
      case Backdrop =>
        callsOnClose := !isMandatory;
      case CloseButton =>
        callsOnClose := ShowsCloseButton(isMandatory);
    }

    /**
     * `handleSubmit`: a form that fails validation sets the error and saves
     * nothing (None); otherwise `onSave` receives it (Some).
     */
    method HandleSubmit() returns (saved: Option<ConfigurationData>)
      modifies this
      ensures formData == old(formData)
      ensures Validate(formData).Err? ==> saved == None && error == Validate(formData).error
      ensures Validate(formData).Ok? ==> saved == Some(Validate(formData).value) && error == old(error)
    {
      if Text.IsBlank(formData.apiKey) {
        error := ApiKeyRequired;
        return None;
      }
      saved := Some(formData);
    }
  }
}
