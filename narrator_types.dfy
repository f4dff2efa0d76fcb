/** The persisted narrator record and its configuration (internal/narrator/types.go). */
module NarratorTypes {
  import opened Util

  /** The persisted run state. Only these three values exist: a zombie session is detected
      live by the manager and never stored. */
  datatype State = Stopped | Running | Paused

  /** The narrative output style; a free-form string on the wire. */
  type NarrativeStyle = string

  const StyleBook: NarrativeStyle := "book"
  const StyleTVScript: NarrativeStyle := "tv-script"
  const StyleYouTubeShort: NarrativeStyle := "youtube-short"

  datatype NarratorConfig = NarratorConfig(
    style: NarrativeStyle,
    outputDir: string,
    /** Event types to observe; empty means all. */
    eventTypes: seq<string>,
    /** Rigs to observe; empty means all. */
    rigFilter: seq<string>)

  /** The record kept in narrator.json. The two instants are absent until set. */
  datatype Narrator = Narrator(
    state: State,
    startedAt: Option<Time>,
    config: NarratorConfig,
    lastEventAt: Option<Time>,
    narrativesGenerated: int)

  /** Whether a configuration's type list admits an event type: an empty list admits all. */
  predicate ObservesType(c: NarratorConfig, eventType: string)
  {
    c.eventTypes == [] || eventType in c.eventTypes
  }

  /** Whether a configuration's rig filter admits a rig: an empty filter admits all. */
  predicate ObservesRig(c: NarratorConfig, rig: string)
  {
    c.rigFilter == [] || rig in c.rigFilter
  }

  /** The default configuration: book style, no output directory, no type or rig filter,
      so it observes every event of every rig. */
  function DefaultConfig(): (c: NarratorConfig)
    ensures c.style == StyleBook && c.outputDir == ""
    ensures c.eventTypes == [] && c.rigFilter == []
    ensures forall t :: ObservesType(c, t)
    ensures forall rig :: ObservesRig(c, rig)
  {
    NarratorConfig(StyleBook, "", [], [])
  }
}
