/**
 * The hiring portal component's state and its event handlers: form and
 * branding edits, the attachment input, the logo check's callbacks and the
 * download. The browser storage slot for the branding is a plain field.
 */
module Portal {
  import opened Records
  import opened LogoValidation
  import OfferEmail
  import DownloadName

  /** The branding the component starts from when the stored slot holds `stored`. */
  function LoadedSettings(stored: Option<CompanySettings>): (settings: CompanySettings)
    ensures Some(settings) == stored || (stored == None && settings == DefaultSettings)
  {
    if stored.Some? then stored.value else DefaultSettings
  }

  class HiringPortal {
    var formData: FormData
    var companySettings: CompanySettings
    /** The "company-settings" storage slot: absent, or the last saved branding. */
    var storedSettings: Option<CompanySettings>
    var attachedDocument: Option<AttachedDocument>
    var logoLoading: bool
    var logoError: bool

    function Flags(): LogoFlags
      reads this
    {
      LogoFlags(logoLoading, logoError)
    }

    /** The stored slot holds exactly the branding in use. */
    predicate Saved()
      reads this
    {
      storedSettings == Some(companySettings)
    }

    /**
     * Mounting: the stored branding, if any, replaces the default; the logo
     * check runs for the default address and again for the stored one when
     * it differs.
     */
    constructor (stored: Option<CompanySettings>)
      ensures formData == EmptyForm && attachedDocument == None
      ensures companySettings == LoadedSettings(stored) && storedSettings == stored
      ensures var first := Step(Initial, UrlChanged(DefaultSettings.logoUrl));
        Flags() == if LoadedSettings(stored).logoUrl == DefaultSettings.logoUrl then first
                   else Step(first, UrlChanged(LoadedSettings(stored).logoUrl))
      ensures logoLoading && !logoError
    {
      formData := EmptyForm;
      companySettings := DefaultSettings;
      storedSettings := stored;
      attachedDocument := None;
      logoLoading, logoError := false, false;
      new;
      CheckLogo();
      if stored.Some? {
        ShowSettings(stored.value);
      }
    }

    /** The logo effect, run for the address now in use. */
    method CheckLogo()
      modifies this
      ensures Flags() == Step(old(Flags()), UrlChanged(companySettings.logoUrl))
      ensures formData == old(formData) && companySettings == old(companySettings)
      ensures storedSettings == old(storedSettings) && attachedDocument == old(attachedDocument)
    {
      var url := companySettings.logoUrl;
      if LooksRemote(url) {
        logoLoading := true;
      } else {
        logoError := false;
      }
    }

    /** Replacing the branding in component state; the logo effect reruns only when the address changed. */
    method ShowSettings(newSettings: CompanySettings)
      modifies this
      ensures companySettings == newSettings
      ensures Flags() == if newSettings.logoUrl == old(companySettings.logoUrl) then old(Flags())
                         else Step(old(Flags()), UrlChanged(newSettings.logoUrl))
      ensures formData == old(formData) && storedSettings == old(storedSettings)
      ensures attachedDocument == old(attachedDocument)
    {
      var changed := newSettings.logoUrl != companySettings.logoUrl;
      companySettings := newSettings;
      if changed {
        CheckLogo();
      }
    }

    /** `saveSettings`: the new branding goes to component state and to the storage slot. */
    method SaveSettings(newSettings: CompanySettings)
      modifies this
      ensures companySettings == newSettings && storedSettings == Some(newSettings) && Saved()
      ensures Flags() == if newSettings.logoUrl == old(companySettings.logoUrl) then old(Flags())
                         else Step(old(Flags()), UrlChanged(newSettings.logoUrl))
      ensures formData == old(formData) && attachedDocument == old(attachedDocument)
    {
      ShowSettings(newSettings);
      storedSettings := Some(newSettings);
    }

    /** Editing the company name: only the name changes, and it is saved at once. */
    method EditCompanyName(name: string)
      modifies this
      ensures companySettings == old(companySettings).(companyName := name) && Saved()
      ensures companySettings.logoUrl == old(companySettings.logoUrl)
      ensures Flags() == old(Flags())
      ensures formData == old(formData) && attachedDocument == old(attachedDocument)
    {
      SaveSettings(companySettings.(companyName := name));
    }

    /** Editing the logo address: only the address changes, it is saved, and a changed address is checked. */
    method EditLogoUrl(url: string)
      modifies this
      ensures companySettings == old(companySettings).(logoUrl := url) && Saved()
      ensures companySettings.companyName == old(companySettings.companyName)
      ensures Flags() == if url == old(companySettings.logoUrl) then old(Flags())
                         else Step(old(Flags()), UrlChanged(url))
      ensures formData == old(formData) && attachedDocument == old(attachedDocument)
    {
      SaveSettings(companySettings.(logoUrl := url));
    }

    /** Editing the candidate name: only that form field changes. */
    method EditCandidateName(name: string)
      modifies this
      ensures formData == old(formData).(candidateName := name)
      ensures formData.email == old(formData.email) && formData.role == old(formData.role)
      ensures formData.interviewDate == old(formData.interviewDate)
      ensures companySettings == old(companySettings) && storedSettings == old(storedSettings)
      ensures attachedDocument == old(attachedDocument) && Flags() == old(Flags())
    {
      formData := formData.(candidateName := name);
    }

    /** Choosing a role: only that form field changes. */
    method EditRole(role: string)
      requires IsRoleChoice(role)
      modifies this
      ensures formData == old(formData).(role := role)
      ensures formData.email == old(formData.email) && formData.candidateName == old(formData.candidateName)
      ensures formData.interviewDate == old(formData.interviewDate)
      ensures companySettings == old(companySettings) && storedSettings == old(storedSettings)
      ensures attachedDocument == old(attachedDocument) && Flags() == old(Flags())
    {
      formData := formData.(role := role);
    }

    /** The file input: a chosen file is recorded by its name; no choice leaves the attachment as it was. */
    method ChooseFile(fileName: Option<string>)
      modifies this
      ensures attachedDocument == if fileName.Some? then Some(AttachedDocument(fileName.value)) else old(attachedDocument)
      ensures formData == old(formData) && companySettings == old(companySettings)
      ensures storedSettings == old(storedSettings) && Flags() == old(Flags())
    {
      if fileName.Some? {
        attachedDocument := Some(AttachedDocument(fileName.value));
      }
    }

    /** The image's load callback. */
    method OnLogoLoad(src: string)
      modifies this
      ensures Flags() == Step(old(Flags()), ImageLoaded(src)) && !logoLoading && !logoError
      ensures formData == old(formData) && companySettings == old(companySettings)
      ensures storedSettings == old(storedSettings) && attachedDocument == old(attachedDocument)
    {
      logoLoading := false;
      logoError := false;
    }

    /** The image's error callback. */
    method OnLogoError(src: string)
      modifies this
      ensures Flags() == Step(old(Flags()), ImageFailed(src)) && !logoLoading && logoError
      ensures formData == old(formData) && companySettings == old(companySettings)
      ensures storedSettings == old(storedSettings) && attachedDocument == old(attachedDocument)
    {
      logoLoading := false;
      logoError := true;
    }

    /** `downloadEmail`: the file name and the HTML content of the offer file. */
    method DownloadEmail(year: int) returns (fileName: string, html: string)
      ensures fileName == DownloadName.DownloadFilename(formData.candidateName)
      ensures html == OfferEmail.RenderHTML(formData, companySettings, attachedDocument, year)
    {
      html := OfferEmail.RenderHTML(formData, companySettings, attachedDocument, year);
      fileName := DownloadName.DownloadFilename(formData.candidateName);
    }
  }

  /** Saving branding and mounting again from the storage slot brings the same branding back. */
  method ReloadAfterSave(stored: Option<CompanySettings>, settings: CompanySettings) returns (reloaded: CompanySettings)
    ensures reloaded == settings
  {
    var portal := new HiringPortal(stored);
    portal.SaveSettings(settings);
    var again := new HiringPortal(portal.storedSettings);
    reloaded := again.companySettings;
  }
}
