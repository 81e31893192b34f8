/** The value types of the status badge: its severity, its optional detail
    information and the severity-to-colour table. */
module StatusTypes {

  datatype Option<+T> = None | Some(value: T)

  /** The four severities a badge may carry. */
  datatype StatusType = Info | Warning | Danger | Fine

  /** Detail information: a short text that is always shown and an optional
      longer text. */
  datatype InfoType = InfoType(shortInfo: string, fullInfo: Option<string>)

  /** The severity a badge uses when its caller gives none. */
  const DEFAULT_STATUS_TYPE: StatusType := Info

  predicate IsHexDigit(ch: char) {
    ('0' <= ch <= '9') || ('a' <= ch <= 'f')
  }

  /** A CSS colour written as '#' followed by six lower-case hex digits. */
  predicate IsHexColor(c: string) {
    |c| == 7 && c[0] == '#' && forall i :: 1 <= i < 7 ==> IsHexDigit(c[i])
  }

  /** The colour table: defined for every severity, each entry a CSS colour. */
  function ColorMap(t: StatusType): (c: string)
    ensures IsHexColor(c)
  {
    match t
    case Info => "#33b5e5"
    case Warning => "#ffbb33"
    case Danger => "#ff4444"
    case Fine => "#00c851"
  }

  /** Distinct severities are told apart by their colour alone. */
  lemma ColorMapInjective(a: StatusType, b: StatusType)
    ensures ColorMap(a) == ColorMap(b) <==> a == b
  {
  }

  /** The severity in force: the given one, or Info when none is given. */
  function EffectiveStatusType(statusType: Option<StatusType>): (t: StatusType)
    ensures statusType.Some? ==> t == statusType.value
    ensures statusType.None? ==> t == DEFAULT_STATUS_TYPE
  {
    match statusType
    case Some(s) => s
    case None => DEFAULT_STATUS_TYPE
  }

  /** JavaScript truthiness of an optional string: absent and "" are falsy. */
  predicate Truthy(s: Option<string>) {
    s.Some? && s.value != ""
  }
}
