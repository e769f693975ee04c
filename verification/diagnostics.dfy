/** The immutable description of one static-analysis rule, as the analysis
    host receives it. */
module Diagnostics {

  /** A user-visible message; its localization is not modelled, so it is
      treated as an opaque string. */
  type LocalizableString = string

  /** The default severity of a rule's diagnostics. */
  datatype DiagnosticSeverity = Hidden | Info | Warning | Error

  /** The category every code-quality rule is filed under. */
  const CodeQualityCategory: string := "CodeQuality"

  /** A rule descriptor. It records no configurability or unnecessary-code
      flag of its own: the host learns those only from `customTags`. */
  datatype DiagnosticDescriptor = DiagnosticDescriptor(
    id: string,
    title: LocalizableString,
    messageFormat: LocalizableString,
    category: string,
    defaultSeverity: DiagnosticSeverity,
    isEnabledByDefault: bool,
    customTags: seq<string>)
}
