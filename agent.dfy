/**
 * The deterministic parts of the outbound debt-collection agent (agent.py):
 * reading the call job's metadata with its defaults, the agent's per-call
 * fields, the records its payment tools return, and the greeting it asks
 * for once the debtor has picked up. Telephony and the voice session are
 * outside the model; whether the dial reached the debtor is a parameter.
 */
module Agent {
  import opened Wrappers
  import opened Text

  /** The job metadata after JSON decoding: keys to string values. */
  type Metadata = map<string, string>

  const DefaultCustomerName := "Valued Customer"
  const DefaultAccountNumber := "ABC123"
  const DefaultOutstandingAmount := "1000"
  const DefaultDueDate := "September 15, 2025"
  const DefaultCardType := "Visa"

  /** `dict.get(key, default)`. */
  function Get(m: Metadata, key: string, default: string): (v: string)
    ensures key in m ==> v == m[key]
    ensures key !in m ==> v == default
  {
    if key in m then m[key] else default
  }

  /** What `entrypoint` reads out of the metadata before building the agent. */
  datatype CallSetup = CallSetup(
    phoneNumber: string,
    participantIdentity: string,
    customerName: string,
    accountNumber: string,
    outstandingAmount: string,
    dueDate: string,
    cardType: string,
    dialInfo: Metadata)

  /** Indexing the metadata with a key it lacks raises KeyError. */
  datatype SetupError = MissingPhoneNumber

  /**
   * The metadata handling of `entrypoint`: "phone_number" is required and is
   * also the participant identity; the five customer fields fall back to
   * their defaults.
   */
  function ParseJob(dialInfo: Metadata): (r: Result<CallSetup, SetupError>)
    ensures r.Failure? <==> "phone_number" !in dialInfo
    ensures r.Success? ==>
      && r.value.phoneNumber == dialInfo["phone_number"]
      && r.value.participantIdentity == r.value.phoneNumber
      && r.value.dialInfo == dialInfo
    ensures r.Success? ==>
      && ("customer_name" in dialInfo ==> r.value.customerName == dialInfo["customer_name"])
      && ("customer_name" !in dialInfo ==> r.value.customerName == DefaultCustomerName)
      && ("account_number" in dialInfo ==> r.value.accountNumber == dialInfo["account_number"])
      && ("account_number" !in dialInfo ==> r.value.accountNumber == DefaultAccountNumber)
      && ("outstanding_amount" in dialInfo ==> r.value.outstandingAmount == dialInfo["outstanding_amount"])
      && ("outstanding_amount" !in dialInfo ==> r.value.outstandingAmount == DefaultOutstandingAmount)
      && ("due_date" in dialInfo ==> r.value.dueDate == dialInfo["due_date"])
      && ("due_date" !in dialInfo ==> r.value.dueDate == DefaultDueDate)
      && ("card_type" in dialInfo ==> r.value.cardType == dialInfo["card_type"])
      && ("card_type" !in dialInfo ==> r.value.cardType == DefaultCardType)
  {
    if "phone_number" !in dialInfo then Failure(MissingPhoneNumber)
    else
      var phoneNumber := dialInfo["phone_number"];
      Success(CallSetup(
        phoneNumber, phoneNumber,
        Get(dialInfo, "customer_name", DefaultCustomerName),
        Get(dialInfo, "account_number", DefaultAccountNumber),
        Get(dialInfo, "outstanding_amount", DefaultOutstandingAmount),
        Get(dialInfo, "due_date", DefaultDueDate),
        Get(dialInfo, "card_type", DefaultCardType),
        dialInfo))
  }

  /** The metadata a dispatcher sends when it fills in every field. */
  function FullMetadata(phoneNumber: string, customerName: string, accountNumber: string,
                        outstandingAmount: string, dueDate: string, cardType: string): Metadata
  {
    map["phone_number" := phoneNumber, "customer_name" := customerName,
        "account_number" := accountNumber, "outstanding_amount" := outstandingAmount,
        "due_date" := dueDate, "card_type" := cardType]
  }

  /** Metadata holding every field is read back field for field: no default overrides a given value. */
  lemma ParseFullMetadata(phoneNumber: string, customerName: string, accountNumber: string,
                          outstandingAmount: string, dueDate: string, cardType: string)
    ensures var m := FullMetadata(phoneNumber, customerName, accountNumber, outstandingAmount, dueDate, cardType);
      ParseJob(m) == Success(CallSetup(phoneNumber, phoneNumber, customerName, accountNumber,
                                       outstandingAmount, dueDate, cardType, m))
  {
    var m := FullMetadata(phoneNumber, customerName, accountNumber, outstandingAmount, dueDate, cardType);
    assert m["phone_number"] == phoneNumber;
    assert m["customer_name"] == customerName;
    assert m["account_number"] == accountNumber;
    assert m["outstanding_amount"] == outstandingAmount;
    assert m["due_date"] == dueDate;
    assert m["card_type"] == cardType;
  }

  /** Metadata holding only the phone number yields every default. */
  lemma ParsePhoneOnly(phoneNumber: string)
    ensures var m := map["phone_number" := phoneNumber];
      ParseJob(m) == Success(CallSetup(phoneNumber, phoneNumber, DefaultCustomerName, DefaultAccountNumber,
                                       DefaultOutstandingAmount, DefaultDueDate, DefaultCardType, m))
  {
    var m := map["phone_number" := phoneNumber];
    assert m.Keys == {"phone_number"};
  }

  /** The remote party on the call. */
  datatype Participant = Participant(identity: string)

  /** The request that dials the debtor into the room (`CreateSIPParticipantRequest`). */
  datatype DialRequest = DialRequest(roomName: string, sipTrunkId: Option<string>, sipCallTo: string,
                                     participantIdentity: string, waitUntilAnswered: bool)

  /**
   * The dial request `entrypoint` sends: it calls the phone number, names the
   * participant after it and waits until the call is answered.
   */
  function Dial(roomName: string, trunkId: Option<string>, setup: CallSetup): (request: DialRequest)
    requires setup.participantIdentity == setup.phoneNumber
    ensures request.sipCallTo == request.participantIdentity == setup.phoneNumber
    ensures request.waitUntilAnswered
    ensures request.roomName == roomName && request.sipTrunkId == trunkId
  {
    DialRequest(roomName, trunkId, setup.phoneNumber, setup.participantIdentity, true)
  }

  /** A tool handler cannot log the participant's identity before one has joined. */
  datatype ToolError = NoParticipant

  /** The dictionary a tool hands back to the language model. */
  type ToolResult = map<string, string>

  const PlanId := "PLAN789012345"
  const CallbackId := "CB456789012"
  const DisputeId := "DISP123456789"
  const DisputeMessage := "Dispute logged. Account will be reviewed within 3-5 business days"

  /** `VasooliMan`: the agent for one call, holding the debtor's details. */
  class VasooliMan {
    var customerName: string
    var accountNumber: string
    var outstandingAmount: string
    var dueDate: string
    var cardType: string
    var participant: Option<Participant>
    var dialInfo: Metadata

    /** `__init__`: stores the details unchanged; no participant has joined yet. */
    constructor (customerName: string, accountNumber: string, outstandingAmount: string,
                 dueDate: string, cardType: string, dialInfo: Metadata)
      ensures this.customerName == customerName && this.accountNumber == accountNumber
      ensures this.outstandingAmount == outstandingAmount && this.dueDate == dueDate
      ensures this.cardType == cardType && this.dialInfo == dialInfo
      ensures participant == None
    {
      this.customerName := customerName;
      this.accountNumber := accountNumber;
      this.outstandingAmount := outstandingAmount;
      this.dueDate := dueDate;
      this.cardType := cardType;
      this.participant := None;
      this.dialInfo := dialInfo;
    }

    /** `set_participant`: records who joined; nothing else changes. */
    method SetParticipant(participant: Participant)
      modifies this`participant
      ensures this.participant == Some(participant)
    {
      this.participant := Some(participant);
    }

    /** `setup_payment_plan`: an approved plan whose message names the amount and the duration. */
    method SetupPaymentPlan(monthlyAmount: string, durationMonths: string)
      returns (result: Result<ToolResult, ToolError>)
      ensures result.Failure? <==> participant.None?
      ensures result.Success? ==>
        && result.value.Keys == {"status", "plan_id", "message"}
        && result.value["status"] == "approved"
        && result.value["plan_id"] == PlanId
        && Contains(result.value["message"], monthlyAmount)
        && Contains(result.value["message"], durationMonths)
    {
      if participant.None? {
        return Failure(NoParticipant);
      }
      var head := "Payment plan approved: $";
      var middle := " per month for ";
      var message := head + monthlyAmount + middle + durationMonths + " months";
      ContainsInfix(head, monthlyAmount, middle + durationMonths + " months");
      assert message == head + monthlyAmount + (middle + durationMonths + " months");
      ContainsInfix(head + monthlyAmount + middle, durationMonths, " months");
      result := Success(map["status" := "approved", "plan_id" := PlanId, "message" := message]);
    }

    /** `schedule_callback`: a scheduled callback whose message names the date and the time. */
    method ScheduleCallback(callbackDate: string, callbackTime: string)
      returns (result: Result<ToolResult, ToolError>)
      ensures result.Failure? <==> participant.None?
      ensures result.Success? ==>
        && result.value.Keys == {"status", "callback_id", "message"}
        && result.value["status"] == "scheduled"
        && result.value["callback_id"] == CallbackId
        && Contains(result.value["message"], callbackDate)
        && Contains(result.value["message"], callbackTime)
    {
      if participant.None? {
        return Failure(NoParticipant);
      }
      var head := "Callback scheduled for ";
      var middle := " at ";
      var message := head + callbackDate + middle + callbackTime;
      ContainsInfix(head, callbackDate, middle + callbackTime);
      assert message == head + callbackDate + (middle + callbackTime);
      ContainsInfix(head + callbackDate + middle, callbackTime, "");
      assert message == head + callbackDate + middle + callbackTime + "";
      result := Success(map["status" := "scheduled", "callback_id" := CallbackId, "message" := message]);
    }

    /** `process_payment`: a successful payment whose message names the amount and the method. */
    method ProcessPayment(amount: string, paymentMethod: string)
      returns (result: Result<ToolResult, ToolError>)
      ensures result.Failure? <==> participant.None?
      ensures result.Success? ==>
        && result.value.Keys == {"status", "message"}
        && result.value["status"] == "success"
        && Contains(result.value["message"], amount)
        && Contains(result.value["message"], paymentMethod)
    {
      if participant.None? {
        return Failure(NoParticipant);
      }
      var head := "Payment of $";
      var middle := " processed successfully via ";
      var message := head + amount + middle + paymentMethod;
      ContainsInfix(head, amount, middle + paymentMethod);
      assert message == head + amount + (middle + paymentMethod);
      ContainsInfix(head + amount + middle, paymentMethod, "");
      assert message == head + amount + middle + paymentMethod + "";
      result := Success(map["status" := "success", "message" := message]);
    }

    /** `handle_payment_dispute`: a logged dispute; the reason given does not change the reply. */
    method HandlePaymentDispute(disputeReason: string)
      returns (result: Result<ToolResult, ToolError>)
      ensures result.Failure? <==> participant.None?
      ensures result.Success? ==>
        result.value == map["status" := "disputed", "dispute_id" := DisputeId, "message" := DisputeMessage]
    {
      if participant.None? {
        return Failure(NoParticipant);
      }
      result := Success(map["status" := "disputed", "dispute_id" := DisputeId, "message" := DisputeMessage]);
    }
  }

  const GreetingHead :=
    "Introduce yourself with this greeting: 'Hi, I'm Alex from the Bank of America'. "
    + "Then, ask if you are speaking with "
  const GreetingTail := " to verify their identity before proceeding."
  const NamePlaceholder := "{customer_name}"

  /**
   * The greeting instructions as the code sends them: the text is a plain
   * string literal, not an f-string, so the placeholder goes out as is.
   */
  function GreetingAsWritten(customerName: string): (instructions: string)
    ensures Contains(instructions, NamePlaceholder)
    ensures |instructions| == |GreetingHead| + |NamePlaceholder| + |GreetingTail|
  {
    ContainsInfix(GreetingHead, NamePlaceholder, GreetingTail);
    GreetingHead + NamePlaceholder + GreetingTail
  }

  /** The greeting instructions as intended: they name the customer being called. */
  function Greeting(customerName: string): (instructions: string)
    ensures Contains(instructions, customerName)
  {
    ContainsInfix(GreetingHead, customerName, GreetingTail);
    GreetingHead + customerName + GreetingTail
  }

  /** Different customers get different greeting instructions. */
  lemma GreetingInjective(a: string, b: string)
    requires Greeting(a) == Greeting(b)
    ensures a == b
  {
    var ga, gb := Greeting(a), Greeting(b);
    assert |a| == |b|;
    assert ga[|GreetingHead| .. |GreetingHead| + |a|] == a;
    assert gb[|GreetingHead| .. |GreetingHead| + |b|] == b;
  }

  /**
   * As written, every customer is greeted with the instructions meant for a
   * customer literally named "{customer_name}", which are the wrong ones for
   * anyone else.
   */
  lemma GreetingAsWrittenMisnames(customerName: string)
    requires customerName != NamePlaceholder
    ensures GreetingAsWritten(customerName) == Greeting(NamePlaceholder)
    ensures GreetingAsWritten(customerName) != Greeting(customerName)
  {
    if GreetingAsWritten(customerName) == Greeting(customerName) {
      GreetingInjective(NamePlaceholder, customerName);
    }
  }

  /** What `entrypoint` leaves behind once the call is set up. */
  datatype CallStart = CallStart(agent: VasooliMan, dial: DialRequest, greeting: Option<string>)

  /**
   * `entrypoint` without the voice session: read the metadata, build the
   * agent, dial the debtor and, when the call is answered (`answered`), record
   * the participant that joined under the dialled identity and ask for the
   * greeting. A dial that fails leaves the agent without a participant.
   */
  method Entrypoint(roomName: string, trunkId: Option<string>, dialInfo: Metadata, answered: bool)
    returns (result: Result<CallStart, SetupError>)
    ensures result.Failure? <==> "phone_number" !in dialInfo
    ensures result.Success? ==>
      var setup := ParseJob(dialInfo).value;
      var agent := result.value.agent;
      && fresh(agent)
      && agent.customerName == setup.customerName
      && agent.accountNumber == setup.accountNumber
      && agent.outstandingAmount == setup.outstandingAmount
      && agent.dueDate == setup.dueDate
      && agent.cardType == setup.cardType
      && agent.dialInfo == dialInfo
      && result.value.dial == Dial(roomName, trunkId, setup)
      && (answered ==> agent.participant == Some(Participant(dialInfo["phone_number"])))
      && (answered ==> result.value.greeting == Some(Greeting(setup.customerName)))
      && (!answered ==> agent.participant == None && result.value.greeting == None)
  {
    var job := ParseJob(dialInfo);
    if job.Failure? {
      return Failure(job.error);
    }
    var setup := job.value;
    var agent := new VasooliMan(setup.customerName, setup.accountNumber, setup.outstandingAmount,
                                setup.dueDate, setup.cardType, setup.dialInfo);
    var dial := Dial(roomName, trunkId, setup);
    var greeting := None;
    if answered {
      agent.SetParticipant(Participant(setup.participantIdentity));
      greeting := Some(Greeting(setup.customerName));
    }
    result := Success(CallStart(agent, dial, greeting));
  }
}
