/** The labels the OpenGL debug-message callback prints for a message's source,
    type and severity (`_gl_source`, `_gl_type`, `_gl_severity`). Each is a
    switch over the enumerants of the KHR_debug extension (OpenGL 4.3 core,
    section 20 "Debug Output"), with "???" for any other value. */
module GlDebug {

  /** `GLenum` is an unsigned 32-bit integer. */
  newtype GLenum = e: int | 0 <= e < 0x1_0000_0000

  const DebugSourceApi: GLenum := 0x8246
  const DebugSourceWindowSystem: GLenum := 0x8247
  const DebugSourceShaderCompiler: GLenum := 0x8248
  const DebugSourceThirdParty: GLenum := 0x8249
  const DebugSourceApplication: GLenum := 0x824A
  const DebugSourceOther: GLenum := 0x824B

  const DebugTypeError: GLenum := 0x824C
  const DebugTypeDeprecatedBehavior: GLenum := 0x824D
  const DebugTypeUndefinedBehavior: GLenum := 0x824E
  const DebugTypePortability: GLenum := 0x824F
  const DebugTypePerformance: GLenum := 0x8250
  const DebugTypeOther: GLenum := 0x8251
  const DebugTypeMarker: GLenum := 0x8268
  const DebugTypePushGroup: GLenum := 0x8269
  const DebugTypePopGroup: GLenum := 0x826A

  const DebugSeverityNotification: GLenum := 0x826B
  const DebugSeverityHigh: GLenum := 0x9146
  const DebugSeverityMedium: GLenum := 0x9147
  const DebugSeverityLow: GLenum := 0x9148

  const Unknown := "???"

  /** The label tables below restate the three switches as maps. They serve only
      as the contracts of the label functions, which keep the source's switch
      form; the contracts prove the two forms agree. */

  /** The label table for sources. */
  const SourceNames: map<GLenum, string> := map[
    DebugSourceApi := "API",
    DebugSourceWindowSystem := "Window System",
    DebugSourceShaderCompiler := "Shader Compiler",
    DebugSourceThirdParty := "Third Party",
    DebugSourceApplication := "App",
    DebugSourceOther := "Other"]

  /** The label table for message types (the program spells "Depricated" so). */
  const TypeNames: map<GLenum, string> := map[
    DebugTypeError := "Error",
    DebugTypeDeprecatedBehavior := "Depricated",
    DebugTypeUndefinedBehavior := "Undefined Behaviour",
    DebugTypePortability := "Non-Portable",
    DebugTypePerformance := "Performance",
    DebugTypeMarker := "Stream Marker",
    DebugTypePushGroup := "Group Push",
    DebugTypePopGroup := "Group Pop",
    DebugTypeOther := "Other"]

  /** The label table for severities. */
  const SeverityNames: map<GLenum, string> := map[
    DebugSeverityHigh := "High",
    DebugSeverityMedium := "Medium",
    DebugSeverityLow := "Low",
    DebugSeverityNotification := "Notify"]

  /** `_gl_source`. */
  function SourceLabel(source: GLenum): (r: string)
    ensures r == if source in SourceNames then SourceNames[source] else Unknown
  {
    if source == DebugSourceApi then "API"
    else if source == DebugSourceWindowSystem then "Window System"
    else if source == DebugSourceShaderCompiler then "Shader Compiler"
    else if source == DebugSourceThirdParty then "Third Party"
    else if source == DebugSourceApplication then "App"
    else if source == DebugSourceOther then "Other"
    else "???"
  }

  /** `_gl_type`. */
  function TypeLabel(kind: GLenum): (r: string)
    ensures r == if kind in TypeNames then TypeNames[kind] else Unknown
  {
    if kind == DebugTypeError then "Error"
    else if kind == DebugTypeDeprecatedBehavior then "Depricated"
    else if kind == DebugTypeUndefinedBehavior then "Undefined Behaviour"
    else if kind == DebugTypePortability then "Non-Portable"
    else if kind == DebugTypePerformance then "Performance"
    else if kind == DebugTypeMarker then "Stream Marker"
    else if kind == DebugTypePushGroup then "Group Push"
    else if kind == DebugTypePopGroup then "Group Pop"
    else if kind == DebugTypeOther then "Other"
    else "???"
  }

  /** `_gl_severity`. */
  function SeverityLabel(severity: GLenum): (r: string)
    ensures r == if severity in SeverityNames then SeverityNames[severity] else Unknown
  {
    if severity == DebugSeverityHigh then "High"
    else if severity == DebugSeverityMedium then "Medium"
    else if severity == DebugSeverityLow then "Low"
    else if severity == DebugSeverityNotification then "Notify"
    else "???"
  }

  // The three lemmas below are not promised by the source. They record that a
  // line printed by `_gl_debug_msg_cb` names the source, type and severity
  // unambiguously whenever the driver passes a listed enumerant.

  /** `_gl_source` tells every listed source apart: two different values share a
      label only when neither is listed, and then the label is "???". */
  lemma SourceLabelDistinguishes(a: GLenum, b: GLenum)
    requires a != b && SourceLabel(a) == SourceLabel(b)
    ensures a !in SourceNames && b !in SourceNames
  {
  }

  /** `_gl_type` tells every listed message type apart. */
  lemma TypeLabelDistinguishes(a: GLenum, b: GLenum)
    requires a != b && TypeLabel(a) == TypeLabel(b)
    ensures a !in TypeNames && b !in TypeNames
  {
  }

  /** `_gl_severity` tells every listed severity apart. */
  lemma SeverityLabelDistinguishes(a: GLenum, b: GLenum)
    requires a != b && SeverityLabel(a) == SeverityLabel(b)
    ensures a !in SeverityNames && b !in SeverityNames
  {
  }
}
