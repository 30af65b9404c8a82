/** The values the hiring portal component keeps in its state. */
module Records {

  datatype Option<T> = None | Some(value: T)

  /** The compose form. Only the candidate name and the role have inputs. */
  datatype FormData = FormData(email: string, candidateName: string, role: string, interviewDate: string)

  /** Company branding shown in every offer email. */
  datatype CompanySettings = CompanySettings(companyName: string, logoUrl: string)

  /** An attached offer document; the file input keeps only the file's name. */
  datatype AttachedDocument = AttachedDocument(name: string)

  /** The form as the component first renders it. */
  const EmptyForm: FormData := FormData("", "", "", "")

  /** The branding used until settings are loaded or edited. */
  const DefaultSettings: CompanySettings := CompanySettings("My Company", "https://i.imgur.com/aiSGId8.png")

  /** The roles the position selector offers, besides the empty "Select a Role..." choice. */
  const Roles: seq<string> := [
    "Data Entry Specialist",
    "Virtual Payroll Assistant",
    "Customer Care Representative",
    "Administrative Support"
  ]

  /** A value the position selector can produce. */
  predicate IsRoleChoice(role: string)
  {
    role == "" || role in Roles
  }
}
