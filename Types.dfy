/**
 * Records exchanged between the popup, the background worker and the page
 * script (src/types/index.ts).
 */
module Types {
  import opened Wrappers

  /** The host fragment that marks a profile link; both the link filter and the
      username pattern look for it. */
  const ProfileHost: string := "instagram.com/"

  /** The most targets one campaign may hold. */
  const MaxLinks: nat := 5

  /** What the popup sends with START_TASK. Delays are in milliseconds. */
  datatype TaskConfig = TaskConfig(links: seq<string>, message: string, delayMin: int, delayMax: int)

  /** One target's outcome, appended once and never changed. */
  datatype TaskResult = TaskResult(link: string, success: bool, error: Option<string>)

  /** The `{success, error?}` value the delivery script answers with. */
  datatype DMResult = DMResult(success: bool, error: Option<string>)

  /** The four log levels the popup's log area distinguishes. */
  datatype Level = InfoLevel | SuccessLevel | WarningLevel | ErrorLevel

  /** Messages the background worker sends to the popup. */
  datatype PopupMessage =
    | Log(text: string, level: Level)
    | Progress(current: nat, total: nat)
    | TaskComplete

  /** Messages the popup sends to the background worker. */
  datatype Request = StartRequest(config: TaskConfig) | StopRequest
}
