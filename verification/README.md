# Code-quality rule descriptors

This project models how Roslyn's code-quality analyzers build the
descriptor of each of their rules (`AbstractCodeQualityDiagnosticAnalyzer.CreateDescriptor`).
The descriptor is an immutable value. Its id, title, message format and
"enabled by default" flag are copied from the arguments. Its category is
always `CodeQuality` and its default severity always `Info`. Its custom tags
are the caller's tags, in the caller's order, followed by `Telemetry`, then
`NotConfigurable` when the rule is not configurable, then `Unnecessary` when
the rule reports unnecessary code.

Layout:

- `diagnostics.dfy` (module `Diagnostics`): the descriptor datatype, the
  severity enumeration and the `CodeQuality` category.
- `well_known_tags.dfy` (module `WellKnownDiagnosticTags`): the three tag
  constants and an occurrence count over tag sequences.
- `code_quality_analyzer.dfy` (module `CodeQualityAnalyzer`): the
  descriptor construction, a decoder that reads the flags back from the tags, and the
  lemmas relating them.
- `options.dfy` (module `Options`): `Option`, the result of the decoder.

The descriptor stores no configurability or unnecessary-code flag. Those
flags can be seen only through its tags. In the tags after the caller's
prefix, NotConfigurable appears exactly when the rule is not configurable and
Unnecessary exactly when it is unnecessary. In the whole tag sequence this
holds only when the caller did not pass that tag itself, because nothing is
deduplicated; see `HostReadsFlagsByMembership`.

The tag strings (`"Telemetry"`, `"NotConfigurable"`, `"Unnecessary"`) and
the category string `"CodeQuality"` have the values of Roslyn's public
`WellKnownDiagnosticTags` and `DiagnosticCategory`. The files that define
them are not part of this model. What matters to the proofs is that the
three tags are pairwise different.

## Model

| member | source | states |
|---|---|---|
| CodeQualityAnalyzer.CreateDescriptor | src/Features/Core/Portable/CodeQuality/AbstractCodeQualityDiagnosticAnalyzer.cs:38-66 | Category is CodeQuality and severity is Info for every input. Id, title, message format and enabled-by-default pass through. The caller's tags are an exact prefix, with Telemetry at index `|customTags|`. The length is `|customTags| + 1`, plus one if not configurable, plus one if unnecessary. After the prefix, NotConfigurable appears iff not configurable and Unnecessary iff unnecessary. NotConfigurable directly follows Telemetry, and Unnecessary is last. |
| CodeQualityAnalyzer.DerivedTags | src/Features/Core/Portable/CodeQuality/AbstractCodeQualityDiagnosticAnalyzer.cs:48-58 | The appended tags number one, plus one if the rule is not configurable, plus one if it is unnecessary. They start with Telemetry. They contain NotConfigurable iff the rule is not configurable, and Unnecessary iff it is unnecessary. Unnecessary comes last and NotConfigurable second. |
| CodeQualityAnalyzer.CreateDescriptorWithDefaults | src/Features/Core/Portable/CodeQuality/AbstractCodeQualityDiagnosticAnalyzer.cs:42-58 | With the optional parameters omitted, the rule is enabled by default. Its tags are `[Telemetry]` or `[Telemetry, Unnecessary]`, depending only on the unnecessary flag. |
| CodeQualityAnalyzer.DecodeDerivedTags | src/Features/Core/Portable/CodeQuality/AbstractCodeQualityDiagnosticAnalyzer.cs:48-58 | Any sequence the decoder accepts is exactly the derived-tag sequence of the flags it returns. |
| CodeQualityAnalyzer.DecodeDerivedTagsRoundTrip | src/Features/Core/Portable/CodeQuality/AbstractCodeQualityDiagnosticAnalyzer.cs:48-58 | Decoding the derived tags of any pair of flags returns those flags. |
| CodeQualityAnalyzer.DerivedTagsInjective | src/Features/Core/Portable/CodeQuality/AbstractCodeQualityDiagnosticAnalyzer.cs:50-58 | Two flag pairs give equal derived tags iff the pairs are equal. |
| CodeQualityAnalyzer.CreateDescriptorReadBack | src/Features/Core/Portable/CodeQuality/AbstractCodeQualityDiagnosticAnalyzer.cs:47-65 | Whatever the caller's tags, reading the descriptor's tags after the first `|customTags|` recovers both flags. |
| CodeQualityAnalyzer.HostReadsFlagsByMembership | src/Features/Core/Portable/CodeQuality/AbstractCodeQualityDiagnosticAnalyzer.cs:47-58 | Telemetry is always among the tags. If the caller did not supply NotConfigurable (or Unnecessary), then that tag is among the descriptor's tags iff its flag asks for it. |
| CodeQualityAnalyzer.DerivedTagsOccurrences | src/Features/Core/Portable/CodeQuality/AbstractCodeQualityDiagnosticAnalyzer.cs:48-58 | The derived tags hold Telemetry exactly once. They hold NotConfigurable once iff the rule is not configurable, and Unnecessary once iff it is unnecessary; otherwise zero times. |
| CodeQualityAnalyzer.CreateDescriptorKeepsDuplicates | src/Features/Core/Portable/CodeQuality/AbstractCodeQualityDiagnosticAnalyzer.cs:47-58 | There is no deduplication: every tag occurs in the descriptor as often as in the caller's tags plus the derived tags; as multisets, the descriptor's tags are the caller's tags plus the derived tags. |
| CodeQualityAnalyzer.CreateDescriptorTagCounts | src/Features/Core/Portable/CodeQuality/AbstractCodeQualityDiagnosticAnalyzer.cs:47-58 | The descriptor has one more Telemetry than the caller gave. It has one more NotConfigurable exactly when not configurable, and one more Unnecessary exactly when unnecessary. A caller tag equal to Telemetry therefore gives two Telemetry entries. |

## Left out

- `RenameCommandHandler_CutPasteHandler.cs`: both `GetCommandState` overloads only return `nextHandler()`. Both `ExecuteCommand` overloads hand over to `HandlePossibleTypingCommand`, which is not part of this model. Any rename-session decision lives in that unseen code.
- `Initialize` and `InitializeWorker`: host registration (generated-code analysis mode, concurrent execution). They contain no logic that can be stated.
- `GetAnalyzerCategory` and `OpenFileOnly`: abstract, with no body. They depend on the workspace API.
- The constructor that stores `SupportedDiagnostics` and the generated-code flags: plain field assignment.
- CreateDescriptor: accepts every id, title and message format. The library's `DiagnosticDescriptor` constructor (line 60) throws `ArgumentException` for a null or whitespace-only id and rejects a null title, message format or category. That constructor is not part of this model, so its argument checks are not modelled, and the pass-through of `id` is promised for ids the constructor would refuse.
- `ArrayBuilder` pooling (`GetInstance`, `ToArrayAndFree`): modelled as plain `seq` concatenation. Returning the builder to the pool is not modelled.
- Localization of `LocalizableString`: treated as an opaque string.
- A `null` array passed for the `params` tags throws in the code. Dafny sequences cannot be null, so this path is not modelled.
- The descriptor's remaining properties (description, help link) keep their library defaults. They are not modelled.
