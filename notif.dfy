/** The desktop notification built for one message (the Linux/BSD build of `notif::show`). */
module Notif {
  import opened Types

  /** The XDG desktop entry name: the package name `CARGO_PKG_NAME`. */
  const DesktopEntryName: string := "gotify-desktop"

  /** The application name shown with every notification. */
  const AppName: string := "Gotify Desktop"

  /** Gotify's priority scale 0..10 mapped onto the three urgency levels. */
  function UrgencyOf(priority: Int64): (u: Urgency)
    ensures u == Low <==> 0 <= priority <= 3
    ensures u == Critical <==> 8 <= priority <= 10
    ensures u == Normal <==> priority < 0 || 4 <= priority <= 7 || 10 < priority
  {
    if 0 <= priority <= 3 then Low
    else if 4 <= priority <= 7 then Normal
    else if 8 <= priority <= 10 then Critical
    else Normal
  }

  /** A priority outside 0..10, for which a warning is logged. */
  predicate UnexpectedPriority(priority: Int64) {
    priority < 0 || 10 < priority
  }

  function Rank(u: Urgency): nat {
    match u
    case Low => 0
    case Normal => 1
    case Critical => 2
  }

  /** On Gotify's own scale, a higher priority never gets a lower urgency. */
  lemma UrgencyMonotone(p: Int64, q: Int64)
    requires 0 <= p <= q <= 10
    ensures Rank(UrgencyOf(p)) <= Rank(UrgencyOf(q))
  {
  }

  /** Out-of-range priorities are warned about and shown with Normal urgency. */
  lemma UnexpectedIsNormal(p: Int64)
    requires UnexpectedPriority(p)
    ensures UrgencyOf(p) == Normal
  {
  }

  /** The icon: the message's cached application image when it has one, else the desktop entry. */
  function Icon(msg: Message): (icon: string)
    ensures msg.appImgFilepath.Some? ==> icon == msg.appImgFilepath.value
    ensures msg.appImgFilepath.None? ==> icon == DesktopEntryName
  {
    match msg.appImgFilepath
    case Some(p) => p
    case None => DesktopEntryName
  }

  /** The notification shown for `msg`. */
  function Build(msg: Message): (n: Notification)
    ensures n.summary == msg.title && n.body == msg.text
    ensures n.urgency == UrgencyOf(msg.priority)
    ensures n.appName == AppName && n.desktopEntry == DesktopEntryName
    ensures n.icon == Icon(msg)
  {
    Notification(msg.title, msg.text, UrgencyOf(msg.priority), AppName, DesktopEntryName, Icon(msg))
  }
}
