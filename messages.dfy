/**
 * The message a `MessageOperation` presents. Of the fields modelled here, only
 * `duration` and `dismissible` are inspected by the operation; the others are
 * carried along.
 */
module Messages {
  import opened Wrappers

  datatype MessageType = Info | Success | Warning | Error

  /** How long a message stays on screen; the operation only asks whether it is `Automatic`. */
  datatype MessageDuration = Automatic | Manual | Fixed(seconds: real)

  datatype MessagePosition = NavBarOverlay | Top | Bottom

  /** An image is opaque to the operation. */
  datatype Image = Image(name: string)

  datatype Message = Message(
    kind: MessageType,
    title: string,
    subtitle: Option<string>,
    duration: MessageDuration,
    image: Option<Image>,
    position: MessagePosition,
    dismissible: bool)

  /**
   * The message built by the full `MessageController.show` overload, with that
   * overload's defaults: no subtitle, `Automatic` duration, no image, placed over
   * the navigation bar, dismissible by a tap.
   */
  function ShowMessage(
    kind: MessageType,
    title: string,
    subtitle: Option<string> := None,
    duration: MessageDuration := Automatic,
    image: Option<Image> := None,
    position: MessagePosition := NavBarOverlay,
    dismissible: bool := true): Message
  {
    Message(kind, title, subtitle, duration, image, position, dismissible)
  }

  /** Left to its defaults, the full overload asks for both dismissal triggers. */
  lemma ShowDefaults(kind: MessageType, title: string)
    ensures ShowMessage(kind, title).duration == Automatic
    ensures ShowMessage(kind, title).dismissible
    ensures ShowMessage(kind, title).subtitle == None && ShowMessage(kind, title).image == None
    ensures ShowMessage(kind, title).position == NavBarOverlay
  {
  }
}
