/** The record every stage of the engine passes along (src/services/types/notification.ts). */
module NotificationTypes {
  import opened Base

  /** The IPFS content attached to an event: its data URI and its text. */
  datatype Content = Content(id: string, content: string)

  /**
   * The `project` field the filters read. It has three states with different meanings:
   * `Undefined` (the field is absent), `Null` (a global notification) or the project's
   * address with the display data filled in once the project cache knows it.
   */
  datatype ProjectRef =
    | Undefined
    | Null
    | Address(address: string, name: Option<string>, logo: Option<string>)

  /**
   * One notification, raw or processed (the source uses one interface for both).
   * `eventType` stays the number the event log delivers; `isUnread` is set by the
   * unread filter and cleared by the mark-read operations.
   */
  datatype Notification = Notification(
    id: string,
    timestamp: int,
    projectNest: string,
    projectName: Option<string>,
    eventType: int,
    additionalData: string,
    content: Option<Content>,
    eventMessage: Option<string>,
    countdownNextPhase: Option<int>,
    isNew: Option<bool>,
    isUnread: bool,
    project: ProjectRef)

  type RawNotification = Notification
}
