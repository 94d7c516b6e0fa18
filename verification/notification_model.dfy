/** The notification document (models/Notification.js): required owner and
    message, the type enumeration and its default, the unread default and
    the optional link. */
module NotificationModel {
  import opened Common

  datatype NotificationType = BookingStatus | ReviewResponse | SystemMessage

  /** The enum check on `type`. */
  function ParseNotificationType(n: string): (r: Option<NotificationType>)
    ensures r.Some? <==> n in {"booking_status", "review_response", "system_message"}
  {
    if n == "booking_status" then Some(BookingStatus)
    else if n == "review_response" then Some(ReviewResponse)
    else if n == "system_message" then Some(SystemMessage)
    else None
  }

  /** A stored notification; `createdAt` is the timestamp the store adds. */
  datatype Notification = Notification(
    id: NotificationId,
    user: UserId,
    message: string,
    notificationType: NotificationType,
    isRead: bool,
    link: Option<string>,
    createdAt: Ms)

  /** The fields a new notification may be given. */
  datatype NotificationInput = NotificationInput(
    user: Option<UserId>,
    message: Option<string>,
    notificationType: Option<string>,
    isRead: Option<bool>,
    link: Option<string>)

  predicate InputValid(i: NotificationInput) {
    && i.user.Some?
    && i.message.Some? && i.message.value != ""
    && (i.notificationType.Some? ==> ParseNotificationType(i.notificationType.value).Some?)
  }

  /** A new notification document: refused without an owner or a message,
      typed "system_message" and unread unless told otherwise, with the link
      only if one was given. */
  function NewNotification(id: NotificationId, i: NotificationInput, now: Ms): (r: Option<Notification>)
    ensures r.Some? <==> InputValid(i)
    ensures r.Some? ==> && r.value.id == id && r.value.createdAt == now
                        && Some(r.value.user) == i.user && Some(r.value.message) == i.message
                        && (i.notificationType.None? ==> r.value.notificationType == SystemMessage)
                        && (i.notificationType.Some? ==> ParseNotificationType(i.notificationType.value) == Some(r.value.notificationType))
                        && (i.isRead.None? ==> !r.value.isRead)
                        && (i.isRead.Some? ==> r.value.isRead == i.isRead.value)
                        && r.value.link == i.link
  {
    if !InputValid(i) then None
    else Some(Notification(
      id, i.user.value, i.message.value,
      if i.notificationType.Some? then ParseNotificationType(i.notificationType.value).value else SystemMessage,
      i.isRead.GetOr(false), i.link, now))
  }
}
