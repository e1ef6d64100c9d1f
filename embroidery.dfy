/** The customer's embroidery page: the shipping fee chosen from the delivery
    state, how a request's status and prices are shown, when the quote can be
    answered, and the checks made before a design is uploaded or submitted. */
module Embroidery {
  import opened Js
  import opened JsString

  /** A design request as the server returns it. Nullable columns are `Option`s;
      `createdAt` is `new Date(created_at).getTime()`. */
  datatype Request = Request(
    id: string,
    userId: string,
    userEmail: string,
    name: string,
    mobileNumber: string,
    address: string,
    state: string,
    city: string,
    pincode: string,
    designImageUrl: string,
    shippingCost: int,
    designCost: Option<int>,
    totalCost: Option<int>,
    status: string,
    adminNotes: Option<string>,
    createdAt: int)

  const Pending: string := "pending"
  const Quoted: string := "quoted"
  const Approved: string := "approved"
  const InProgress: string := "in_progress"
  const Completed: string := "completed"
  const Cancelled: string := "cancelled"

  /** The six statuses the page knows. */
  const KnownStatuses: seq<string> := [Pending, Quoted, Approved, InProgress, Completed, Cancelled]

  // ---------------------------------------------------------------------------
  // Shipping fee

  const HomeState: string := "andhra pradesh"
  const HomeShipping: int := 80
  const OtherShipping: int := 150

  /** `formData.state.toLowerCase() === 'andhra pradesh' ? 80 : 150` */
  function ShippingCost(state: string): (fee: int)
    ensures fee == HomeShipping <==> ToLower(state) == HomeState
    ensures fee != HomeShipping ==> fee == OtherShipping
  {
    if ToLower(state) == HomeState then HomeShipping else OtherShipping
  }

  lemma {:induction false} ToLowerIdempotent(s: string)
    ensures ToLower(ToLower(s)) == ToLower(s)
  {
    var t := ToLower(s);
    assert forall i :: 0 <= i < |t| ==> ToLower(t)[i] == LowerChar(LowerChar(s[i])) == t[i];
  }

  /** The fee does not depend on letter case, and an empty state (nothing chosen
      yet) pays the higher fee. */
  lemma ShippingIgnoresCase(state: string)
    ensures ShippingCost(ToLower(state)) == ShippingCost(state)
    ensures ShippingCost("") == OtherShipping
  {
    ToLowerIdempotent(state);
    assert |ToLower("")| == 0;
  }

  // ---------------------------------------------------------------------------
  // Status display

  const PendingColor: string := "bg-yellow-500/10 text-yellow-600 border-yellow-500/20"
  const QuotedColor: string := "bg-blue-500/10 text-blue-600 border-blue-500/20"
  const ApprovedColor: string := "bg-green-500/10 text-green-600 border-green-500/20"
  const InProgressColor: string := "bg-purple-500/10 text-purple-600 border-purple-500/20"
  const CompletedColor: string := "bg-green-600/10 text-green-700 border-green-600/20"
  const CancelledColor: string := "bg-red-500/10 text-red-600 border-red-500/20"
  const UnknownColor: string := "bg-gray-500/10 text-gray-600 border-gray-500/20"

  const PendingMessage: string := "We are reviewing your design. You will receive a quote within 24 hours."
  const QuotedMessage: string := "Quote ready! Review the pricing and choose to accept or reject."
  const ApprovedMessage: string := "Quote approved! We will start working on your design soon."
  const InProgressMessage: string := "Your design is being crafted by our expert artisans."
  const CompletedMessage: string := "Your embroidered design is ready and will be shipped soon!"
  const CancelledMessage: string := "This request has been cancelled. Contact us to discuss alternatives."
  const UnknownMessage: string := "Status unknown"

  const StatusColors: seq<string> :=
    [PendingColor, QuotedColor, ApprovedColor, InProgressColor, CompletedColor, CancelledColor]
  const StatusMessages: seq<string> :=
    [PendingMessage, QuotedMessage, ApprovedMessage, InProgressMessage, CompletedMessage, CancelledMessage]

  /** `getStatusColor` */
  function StatusColor(status: string): (c: string)
    ensures status !in KnownStatuses ==> c == UnknownColor
    ensures forall i :: 0 <= i < |KnownStatuses| && KnownStatuses[i] == status ==> c == StatusColors[i]
  {
    match status
    case "pending" => PendingColor
    case "quoted" => QuotedColor
    case "approved" => ApprovedColor
    case "in_progress" => InProgressColor
    case "completed" => CompletedColor
    case "cancelled" => CancelledColor
    case _ => UnknownColor
  }

  /** `getStatusMessage` */
  function StatusMessage(status: string): (m: string)
    ensures status !in KnownStatuses ==> m == UnknownMessage
    ensures forall i :: 0 <= i < |KnownStatuses| && KnownStatuses[i] == status ==> m == StatusMessages[i]
  {
    match status
    case "pending" => PendingMessage
    case "quoted" => QuotedMessage
    case "approved" => ApprovedMessage
    case "in_progress" => InProgressMessage
    case "completed" => CompletedMessage
    case "cancelled" => CancelledMessage
    case _ => UnknownMessage
  }

  /** Each known status has its own message, distinct from the others and from
      the fallback, so a status can be told from its message alone. */
  lemma StatusMessagesDistinct(s: string, t: string)
    ensures StatusMessage(s) == StatusMessage(t) ==> s == t || (s !in KnownStatuses && t !in KnownStatuses)
  {
  }

  /** Each known status has its own colour, distinct from the others and from the
      grey fallback. */
  lemma StatusColorsDistinct(s: string, t: string)
    ensures StatusColor(s) == StatusColor(t) ==> s == t || (s !in KnownStatuses && t !in KnownStatuses)
  {
  }

  // ---------------------------------------------------------------------------
  // Quote display and answer

  /** The `Design Cost` cell and the accept/reject buttons test `design_cost > 0`;
      a null cost compares as 0. */
  predicate HasDesignCost(r: Request) {
    r.designCost.Some? && r.designCost.value > 0
  }

  /** The accept and reject buttons are shown. */
  function ShowsQuoteActions(r: Request): (shown: bool)
    ensures shown ==> r.status == Quoted && r.designCost.Some? && r.designCost.value > 0
  {
    r.status == Quoted && HasDesignCost(r)
  }

  /** A request can only be answered while it is quoted with a positive cost: a
      quote still pending, or any other status, shows no buttons, and whenever the
      buttons are shown the message asks the customer to choose. */
  lemma QuoteActionsOnlyWhenQuoted(r: Request)
    ensures ShowsQuoteActions(r) ==> StatusMessage(r.status) == QuotedMessage
    ensures r.status != Quoted || !HasDesignCost(r) ==> !ShowsQuoteActions(r)
  {
  }

  /** `request.total_cost || request.shipping_cost` */
  function DisplayedTotal(r: Request): (t: int)
    ensures r.totalCost.Some? && r.totalCost.value != 0 ==> t == r.totalCost.value
    ensures r.totalCost.None? || r.totalCost.value == 0 ==> t == r.shippingCost
  {
    if r.totalCost.Some? && r.totalCost.value != 0 then r.totalCost.value else r.shippingCost
  }

  const DefaultRejection: string := "Cost not acceptable"

  /** `rejectionReason || 'Cost not acceptable'` */
  function RejectionReason(reason: string): (sent: string)
    ensures sent != ""
    ensures reason != "" ==> sent == reason
    ensures reason == "" ==> sent == DefaultRejection
  {
    if reason != "" then reason else DefaultRejection
  }

  // ---------------------------------------------------------------------------
  // Upload and submit checks

  const MaxImageBytes: int := 5 * 1024 * 1024

  /** `file.size > 5 * 1024 * 1024` refuses the file. */
  function ImageAccepted(size: nat): (ok: bool)
    ensures ok <==> size <= 5242880
  {
    !(size > MaxImageBytes)
  }

  /** What `handleSubmit` does first. */
  datatype SubmitStep = SignInFirst | NeedImage | Send

  function SubmitGate(signedIn: bool, hasImage: bool): (step: SubmitStep)
    ensures step == Send <==> signedIn && hasImage
    ensures !signedIn ==> step == SignInFirst
  {
    if !signedIn then SignInFirst
    else if !hasImage then NeedImage
    else Send
  }

  /** An image at the limit is still accepted; one byte more is refused. */
  lemma ImageLimitExact()
    ensures ImageAccepted(MaxImageBytes) && !ImageAccepted(MaxImageBytes + 1)
  {
  }
}
