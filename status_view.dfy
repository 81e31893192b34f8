/** What the badge renders, as an abstract view: the ribbon root with its
    content, and the optional info box.  Styling is reduced to the parts that
    carry a decision (fill colour, pointer cursor, the visibility class);
    event handlers are recorded as the action a node would run. */
module StatusView {
  import opened StatusTypes

  /** The actions a rendered node can run when it is clicked. */
  datatype Handler = Toggle | Close

  /** The badge's props.  htmlAttributes is the caller's bag of further
      attributes, forwarded to the root unread. */
  datatype StatusProps = StatusProps(
    labelText: string,
    statusType: Option<StatusType>,
    additionalInfo: Option<InfoType>,
    className: Option<string>,
    htmlAttributes: map<string, string>)

  /** The label and, when detail information exists, the hint beneath it. */
  datatype Content = Content(labelText: string, hint: Option<string>)

  /** The ribbon root: its fill, whether it shows a pointer cursor, its
      click action, the forwarded attributes and its content. */
  datatype Root = Root(
    color: string,
    pointer: bool,
    className: Option<string>,
    onClick: Option<Handler>,
    htmlAttributes: map<string, string>,
    content: Content)

  /** The info box: heading with its "X" control, fill, class and whether
      that class makes it displayed, its own click action, and its texts. */
  datatype InfoBox = InfoBox(
    heading: string,
    closeControl: Option<Handler>,
    color: string,
    className: string,
    visible: bool,
    onClick: Option<Handler>,
    shortText: string,
    fullText: Option<string>)

  datatype View = View(root: Root, infoBox: Option<InfoBox>)

  const HINT_TEXT: string := "(Click for more Info)"

  /** The class under which the info box is displayed; without it the box
      is styled `display: none`. */
  const VISIBLE_CLASS: string := "isVisible"

  /** StatusContent: the label, and the hint exactly when there is detail
      information. */
  function StatusContent(labelText: string, additionalInfo: bool): (c: Content)
    ensures c.labelText == labelText
    ensures c.hint.Some? <==> additionalInfo
    ensures c.hint.Some? ==> c.hint.value == HINT_TEXT
  {
    Content(labelText, if additionalInfo then Some(HINT_TEXT) else None)
  }

  /** StatusInfoBox: closeDetails is the handler of the "X" control; the
      className and onClick it is given are not destructured and so land on
      the box itself. */
  function StatusInfoBox(
    labelText: string,
    additionalInfo: InfoType,
    statusType: StatusType,
    closeDetails: Option<Handler>,
    className: string,
    onClick: Option<Handler>): (b: InfoBox)
    ensures b.heading == labelText && b.shortText == additionalInfo.shortInfo
    ensures b.fullText.Some? <==> Truthy(additionalInfo.fullInfo)
    ensures b.fullText.Some? ==> b.fullText == additionalInfo.fullInfo
    ensures b.color == ColorMap(statusType)
    ensures b.visible <==> className == VISIBLE_CLASS
    ensures b.className == className
    ensures b.closeControl == closeDetails && b.onClick == onClick
  {
    InfoBox(
      labelText,
      closeDetails,
      ColorMap(statusType),
      className,
      className == VISIBLE_CLASS,
      onClick,
      additionalInfo.shortInfo,
      if Truthy(additionalInfo.fullInfo) then additionalInfo.fullInfo else None)
  }

  /** The styled wrapper's decisions for the root: the fill of the effective
      severity, and a pointer cursor when there is detail information. */
  function RootStyle(statusType: Option<StatusType>, additionalInfo: Option<InfoType>): (style: (string, bool))
    ensures style.0 == ColorMap(EffectiveStatusType(statusType))
    ensures style.1 <==> additionalInfo.Some?
  {
    (ColorMap(EffectiveStatusType(statusType)), additionalInfo.Some?)
  }

  /** The render method of the badge for the given props and the current
      value of detailsVisible. */
  function RenderStatus(props: StatusProps, detailsVisible: bool): (v: View)
    // the root is always there and always toggles, with or without info
    ensures v.root.onClick == Some(Toggle)
    ensures v.root.content == StatusContent(props.labelText, props.additionalInfo.Some?)
    ensures v.root.content.labelText == props.labelText
    ensures v.root.htmlAttributes == props.htmlAttributes && v.root.className == props.className
    // the info box exists, the hint shows and the cursor is a pointer exactly when there is info
    ensures v.infoBox.Some? <==> props.additionalInfo.Some?
    ensures v.root.content.hint == if props.additionalInfo.Some? then Some(HINT_TEXT) else None
    ensures v.root.pointer <==> props.additionalInfo.Some?
    // the root is filled with the colour of the effective severity
    ensures v.root.color == ColorMap(EffectiveStatusType(props.statusType))
    ensures v.infoBox.Some? ==>
      var box := v.infoBox.value;
      var info := props.additionalInfo.value;
      // displayed exactly when detailsVisible holds
      && (box.visible <==> detailsVisible)
      // the same fill as the root
      && box.color == v.root.color
      && box.heading == props.labelText
      && box.shortText == info.shortInfo
      // the full text only when it is present and non-empty
      && (box.fullText.Some? <==> Truthy(info.fullInfo))
      && (box.fullText.Some? ==> box.fullText == info.fullInfo)
      // clicking the box closes it; the "X" control has no handler of its own
      && box.onClick == Some(Close)
      && box.closeControl.None?
  {
    var statusType := EffectiveStatusType(props.statusType);
    var style := RootStyle(props.statusType, props.additionalInfo);
    var hasInfo := props.additionalInfo.Some?;
    var root := Root(
      style.0,
      style.1,
      props.className,
      Some(Toggle),
      props.htmlAttributes,
      StatusContent(props.labelText, hasInfo));
    var infoBox :=
      if hasInfo then
        Some(StatusInfoBox(
               props.labelText,
               props.additionalInfo.value,
               statusType,
               None,
               if detailsVisible then VISIBLE_CLASS else "",
               Some(Close)))
      else None;
    View(root, infoBox)
  }

  /** detailsVisible decides nothing but the info box's class and whether it
      is displayed: everything else rendered is the same in both states. */
  lemma StateOnlyAffectsVisibility(props: StatusProps, a: bool, b: bool)
    ensures RenderStatus(props, a).root == RenderStatus(props, b).root
    ensures RenderStatus(props, a).infoBox.Some? == RenderStatus(props, b).infoBox.Some?
    ensures RenderStatus(props, a).infoBox.Some? ==>
      RenderStatus(props, a).infoBox.value.(className := "", visible := false)
      == RenderStatus(props, b).infoBox.value.(className := "", visible := false)
  {
  }
}
