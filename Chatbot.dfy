/**
 * The assistant chat widget (client/components/Chatbot.tsx): the keyword
 * classifier that picks a canned response list, the random choice within the
 * list, and the message list the send handler appends to.
 *
 * The half-second reply delay is left to the caller: `SendMessage` returns
 * the text to answer and `DeliverReply` appends the answer later.
 */
module Chatbot {

  import opened Text

  /** The response lists, named by their key in `symptomDiseases`. */
  datatype Topic = Fever | Cough | Headache | Fatigue | Pain | Nausea | Dizziness | Patient | Mapping | Export | Admin | Default

  /**
   * The canned replies, named by their list and position. Their texts sit
   * in `ReplyText` alone, so that reasoning about which reply is chosen
   * never unfolds the long strings.
   */
  datatype Reply =
      FeverReply1 | FeverReply2 | CoughReply1 | CoughReply2 | HeadacheReply1 | HeadacheReply2 |
      FatigueReply1 | FatigueReply2 | PainReply1 | PainReply2 | NauseaReply1 | NauseaReply2 |
      DizzinessReply1 | DizzinessReply2 | DefaultReply1 | DefaultReply2 | DefaultReply3 |
      PatientReply1 | PatientReply2 | PatientReply3 | MappingReply1 | MappingReply2 |
      MappingReply3 | ExportReply1 | ExportReply2 | ExportReply3 | AdminReply1 | AdminReply2 |
      AdminReply3

  /** The text of a canned reply. */
  function ReplyText(reply: Reply): string
  {
    match reply
    case FeverReply1 => "Based on fever symptoms, possible traditional medicine diagnoses could include: Pitta Dosha Imbalance (excess digestive fire), Ama Accumulation (toxin buildup), or Vata-Pitta Imbalance."
    case FeverReply2 => "Fever may indicate: Fever/Infection (ICD-11: CA90.0), Influenza (ICD-11: CA50.1), or Common Cold (ICD-11: CA15.8). Please consult with a healthcare provider for proper diagnosis."
    case CoughReply1 => "A cough could suggest: Kapha Dosha Imbalance in Ayurveda, affecting the respiratory system. May correspond to ICD-11 codes like Acute Bronchitis (DA90.0) or Upper Respiratory Infection (DA80.3)."
    case CoughReply2 => "Persistent cough may indicate: Cough (ICD-11: MD06.1), Bronchitis (ICD-11: DA90), or Asthma (ICD-11: DA95). Seek medical advice for proper evaluation."
    case HeadacheReply1 => "Headache in traditional medicine often indicates: Vata Dosha disturbance, Pitta aggravation, or blocked channels. In modern medicine: Migraine (ICD-11: 8A81.0) or Tension Headache (ICD-11: 8A80.0)."
    case HeadacheReply2 => "Consider: Sinusitis (ICD-11: DA92), Cluster Headache (ICD-11: 8A82.0), or other primary headache disorders. Professional medical evaluation is recommended."
    case FatigueReply1 => "Fatigue may suggest: Vata Dosha imbalance, Kapha excess, or Ama accumulation causing weakness. Modern equivalent: Fatigue/Asthenia (ICD-11: MG30.0) or Anemia (ICD-11: BA00-BA99)."
    case FatigueReply2 => "Could indicate: General Fatigue (ICD-11: MG30.0), Chronic Fatigue Syndrome (ICD-11: 8E49.1), or Anemia. Consult healthcare provider for proper diagnosis and treatment."
    case PainReply1 => "Pain symptoms suggest multiple possibilities: Vata Dosha aggravation, Pitta imbalance, or blocked energy channels in traditional medicine. ICD-11: Pain (MG30.0) or condition-specific pain codes."
    case PainReply2 => "Pain could indicate: Acute Pain (ICD-11: MG30.01), Chronic Pain (ICD-11: MG30.02), or specific condition pain. Proper evaluation needed for accurate diagnosis."
    case NauseaReply1 => "Nausea often indicates: Pitta Dosha aggravation, Kapha excess, or digestive issues. ICD-11 equivalent: Nausea/Vomiting (DA90.2) or Gastroenteritis (DA93.9)."
    case NauseaReply2 => "Could be: Gastric disorder (ICD-11: DA92), Hepatic condition, or medication side effect. Professional medical evaluation is important."
    case DizzinessReply1 => "Dizziness may suggest: Vata Dosha imbalance, low blood circulation, or inner ear issues. ICD-11: Vertigo (8A84.0) or Dizziness (8A84.1)."
    case DizzinessReply2 => "Could indicate: Vestibular disorder (ICD-11: AB85-AB87), Low Blood Pressure (ICD-11: BA00.1), or Anemia. Consult healthcare provider for proper diagnosis."
    case DefaultReply1 => "How can I help you today?"
    case DefaultReply2 => "I'm here to assist you with Care Sync. What would you like to know?"
    case DefaultReply3 => "Feel free to ask me about patients, code mapping, or any other features."
    case PatientReply1 => "You can create a new patient by clicking the 'Create Patient' button on the Patients page."
    case PatientReply2 => "Patients can have multiple diagnoses attached to them. Each diagnosis is mapped to an ICD-11 code."
    case PatientReply3 => "You can view detailed patient information by clicking the 'View' button on any patient record."
    case MappingReply1 => "Code mapping allows you to map NAMASTE codes to ICD-11 codes."
    case MappingReply2 => "Each mapping has a confidence score that indicates how accurate the mapping is."
    case MappingReply3 => "You can search for codes using the search bar with code numbers or descriptions."
    case ExportReply1 => "You can export patient data in FHIR JSON format from the patient details page."
    case ExportReply2 => "FHIR export includes all patient information and diagnoses in the standardized format."
    case ExportReply3 => "The exported file can be used with other FHIR-compatible systems."
    case AdminReply1 => "The admin dashboard allows you to manage codes, mappings, and users."
    case AdminReply2 => "You can upload new NAMASTE code lists and view mapping coverage statistics."
    case AdminReply3 => "User management includes creating accounts and managing user roles."
  }

  /** The list a reply belongs to. */
  function ListOf(reply: Reply): Topic
  {
    match reply
    case FeverReply1 | FeverReply2 => Fever
    case CoughReply1 | CoughReply2 => Cough
    case HeadacheReply1 | HeadacheReply2 => Headache
    case FatigueReply1 | FatigueReply2 => Fatigue
    case PainReply1 | PainReply2 => Pain
    case NauseaReply1 | NauseaReply2 => Nausea
    case DizzinessReply1 | DizzinessReply2 => Dizziness
    case DefaultReply1 | DefaultReply2 | DefaultReply3 => Default
    case PatientReply1 | PatientReply2 | PatientReply3 => Patient
    case MappingReply1 | MappingReply2 | MappingReply3 => Mapping
    case ExportReply1 | ExportReply2 | ExportReply3 => Export
    case AdminReply1 | AdminReply2 | AdminReply3 => Admin
  }

  /** `symptomDiseases[topic]`: every list has at least two replies, and the lists share none. */
  function Responses(topic: Topic): (r: seq<Reply>)
    ensures |r| >= 2
  {
    match topic
    case Fever => [FeverReply1, FeverReply2]
    case Cough => [CoughReply1, CoughReply2]
    case Headache => [HeadacheReply1, HeadacheReply2]
    case Fatigue => [FatigueReply1, FatigueReply2]
    case Pain => [PainReply1, PainReply2]
    case Nausea => [NauseaReply1, NauseaReply2]
    case Dizziness => [DizzinessReply1, DizzinessReply2]
    case Default => [DefaultReply1, DefaultReply2, DefaultReply3]
    case Patient => [PatientReply1, PatientReply2, PatientReply3]
    case Mapping => [MappingReply1, MappingReply2, MappingReply3]
    case Export => [ExportReply1, ExportReply2, ExportReply3]
    case Admin => [AdminReply1, AdminReply2, AdminReply3]
  }

  /** A reply is in exactly the list it belongs to. */
  lemma ResponsesPartition(topic: Topic, reply: Reply)
    ensures reply in Responses(topic) <==> ListOf(reply) == topic
  {
    var r := Responses(topic);
    if ListOf(reply) == topic {
      match reply
      case FeverReply1 | CoughReply1 | HeadacheReply1 | FatigueReply1 | PainReply1 | NauseaReply1
        | DizzinessReply1 | DefaultReply1 | PatientReply1 | MappingReply1 | ExportReply1 | AdminReply1 =>
        assert r[0] == reply;
      case FeverReply2 | CoughReply2 | HeadacheReply2 | FatigueReply2 | PainReply2 | NauseaReply2
        | DizzinessReply2 | DefaultReply2 | PatientReply2 | MappingReply2 | ExportReply2 | AdminReply2 =>
        assert r[1] == reply;
      case DefaultReply3 | PatientReply3 | MappingReply3 | ExportReply3 | AdminReply3 =>
        assert r[2] == reply;
    }
  }

  /**
   * `getRandomResponse`'s if/else chain over the lower-cased message: the
   * first test that finds its keyword decides. A message that mentions a
   * fever always gets the fever list; the default list answers exactly the
   * messages that contain none of the keywords.
   */
  function Classify(message: string): (r: Topic)
    ensures r == Fever <==> Contains(Lower(message), "fever")
    ensures r == Default <==> forall j :: 0 <= j < |KeywordTable| ==> !Contains(Lower(message), KeywordTable[j].0)
  {
    var text := Lower(message);
    FirstMatchFromExport(text);
    FirstMatchFromDizzy(text);
    FirstMatchFromFatigue(text);
    FirstMatchFromFever(text);
    FirstMatchNone(text, 0);
    if Contains(text, "fever") then Fever
    else if Contains(text, "cough") then Cough
    else if Contains(text, "headache") || Contains(text, "head ache") then Headache
    else if Contains(text, "fatigue") || Contains(text, "tired") then Fatigue
    else if Contains(text, "pain") then Pain
    else if Contains(text, "nausea") then Nausea
    else if Contains(text, "dizzy") || Contains(text, "dizziness") then Dizziness
    else if Contains(text, "patient") then Patient
    else if Contains(text, "mapping") || Contains(text, "map") then Mapping
    else if Contains(text, "export") || Contains(text, "download") then Export
    else if Contains(text, "admin") then Admin
    else Default
  }

  /** The keywords in priority order, each with the list it selects. */
  const KeywordTable: seq<(string, Topic)> := [
    ("fever", Fever), ("cough", Cough), ("headache", Headache), ("head ache", Headache),
    ("fatigue", Fatigue), ("tired", Fatigue), ("pain", Pain), ("nausea", Nausea),
    ("dizzy", Dizziness), ("dizziness", Dizziness), ("patient", Patient),
    ("mapping", Mapping), ("map", Mapping), ("export", Export), ("download", Export), ("admin", Admin)
  ]

  /** The topic of the first table entry from `i` on whose keyword occurs in `text`; `Default` when none does. */
  function FirstMatchFrom(text: string, i: nat): (r: Topic)
    requires i <= |KeywordTable|
    decreases |KeywordTable| - i
  {
    if i == |KeywordTable| then Default
    else if Contains(text, KeywordTable[i].0) then KeywordTable[i].1
    else FirstMatchFrom(text, i + 1)
  }

  /** No table entry from `i` on matching is exactly what gives `Default`. */
  lemma {:induction false} FirstMatchNone(text: string, i: nat)
    requires i <= |KeywordTable|
    ensures FirstMatchFrom(text, i) == Default <==>
              forall j :: i <= j < |KeywordTable| ==> !Contains(text, KeywordTable[j].0)
    decreases |KeywordTable| - i
  {
    if i < |KeywordTable| {
      FirstMatchNone(text, i + 1);
    }
  }

  /** Otherwise the topic is that of the first matching entry, returned as `j`. */
  lemma {:induction false} FirstMatchFound(text: string, i: nat) returns (j: nat)
    requires i <= |KeywordTable| && FirstMatchFrom(text, i) != Default
    ensures i <= j < |KeywordTable| && Contains(text, KeywordTable[j].0)
    ensures FirstMatchFrom(text, i) == KeywordTable[j].1
    ensures forall k :: i <= k < j ==> !Contains(text, KeywordTable[k].0)
    decreases |KeywordTable| - i
  {
    if Contains(text, KeywordTable[i].0) {
      j := i;
    } else {
      j := FirstMatchFound(text, i + 1);
    }
  }

  /** The table from entry 13 on: the export and admin tests. */
  lemma FirstMatchFromExport(t: string)
    ensures FirstMatchFrom(t, 13) ==
              if Contains(t, "export") || Contains(t, "download") then Export
              else if Contains(t, "admin") then Admin
              else Default
  {
    assert FirstMatchFrom(t, 16) == Default;
    assert FirstMatchFrom(t, 15) == if Contains(t, "admin") then Admin else Default;
  }

  /** The table from entry 8 on: the dizziness, patient and mapping tests. */
  lemma FirstMatchFromDizzy(t: string)
    ensures FirstMatchFrom(t, 8) ==
              if Contains(t, "dizzy") || Contains(t, "dizziness") then Dizziness
              else if Contains(t, "patient") then Patient
              else if Contains(t, "mapping") || Contains(t, "map") then Mapping
              else FirstMatchFrom(t, 13)
  {
    assert FirstMatchFrom(t, 11) == if Contains(t, "mapping") || Contains(t, "map") then Mapping else FirstMatchFrom(t, 13);
    assert FirstMatchFrom(t, 10) == if Contains(t, "patient") then Patient else FirstMatchFrom(t, 11);
  }

  /** The table from entry 4 on: the fatigue, pain and nausea tests. */
  lemma FirstMatchFromFatigue(t: string)
    ensures FirstMatchFrom(t, 4) ==
              if Contains(t, "fatigue") || Contains(t, "tired") then Fatigue
              else if Contains(t, "pain") then Pain
              else if Contains(t, "nausea") then Nausea
              else FirstMatchFrom(t, 8)
  {
    assert FirstMatchFrom(t, 7) == if Contains(t, "nausea") then Nausea else FirstMatchFrom(t, 8);
    assert FirstMatchFrom(t, 6) == if Contains(t, "pain") then Pain else FirstMatchFrom(t, 7);
  }

  /** The table from its start: the fever, cough and headache tests. */
  lemma FirstMatchFromFever(t: string)
    ensures FirstMatchFrom(t, 0) ==
              if Contains(t, "fever") then Fever
              else if Contains(t, "cough") then Cough
              else if Contains(t, "headache") || Contains(t, "head ache") then Headache
              else FirstMatchFrom(t, 4)
  {
    assert FirstMatchFrom(t, 2) == if Contains(t, "headache") || Contains(t, "head ache") then Headache else FirstMatchFrom(t, 4);
    assert FirstMatchFrom(t, 1) == if Contains(t, "cough") then Cough else FirstMatchFrom(t, 2);
  }

  /** The if/else chain is the first-match reading of the keyword table. */
  lemma ClassifyIsFirstMatch(message: string)
    ensures Classify(message) == FirstMatchFrom(Lower(message), 0)
  {
    var t := Lower(message);
    FirstMatchFromExport(t);
    FirstMatchFromDizzy(t);
    FirstMatchFromFatigue(t);
    FirstMatchFromFever(t);
  }

  /** Matching ignores case: a message and its lower-cased form get the same list. */
  lemma ClassifyIgnoresCase(message: string)
    ensures Classify(Lower(message)) == Classify(message)
  {
    LowerIdempotent(message);
  }

  /** The `mapping` test is redundant: any text containing "mapping" contains "map". */
  lemma MapSubsumesMapping(text: string)
    ensures Contains(text, "mapping") || Contains(text, "map") <==> Contains(text, "map")
  {
    assert "mapping" == "map" + "ping";
    if Contains(text, "mapping") {
      ContainsPrefixOfNeedle(text, "map", "ping");
    }
  }

  /** `Math.floor(random * list.length)` for `0 <= random < 1`. */
  function ResponseIndex(random: real, n: nat): (i: int)
    requires 0.0 <= random < 1.0 && n > 0
    ensures 0 <= i < n
  {
    var x := random * n as real;
    assert x < n as real by {
      assert (1.0 - random) * n as real > 0.0;
    }
    x.Floor
  }

  /** `getRandomResponse(message)`: a reply from the list the message's keywords select. */
  function PickResponse(message: string, random: real): (r: Reply)
    requires 0.0 <= random < 1.0
    ensures r in Responses(Classify(message))
    ensures ListOf(r) == Classify(message)
  {
    var list := Responses(Classify(message));
    var r := list[ResponseIndex(random, |list|)];
    ResponsesPartition(Classify(message), r);
    r
  }

  // ------------------------------------------------------------ messages

  datatype Sender = User | Bot

  datatype Message = Message(id: string, text: string, sender: Sender)

  const WelcomeText: string := "Welcome to Care Sync! I'm your assistant. How can I help you today?"

  class ChatState {
    var messages: seq<Message>
    var inputValue: string
    var isLoading: bool

    constructor ()
      ensures messages == [Message("welcome", WelcomeText, Bot)] && inputValue == "" && !isLoading
    {
      messages := [Message("welcome", WelcomeText, Bot)];
      inputValue := "";
      isLoading := false;
    }

    method Type(text: string)
      modifies this
      ensures inputValue == text && messages == old(messages) && isLoading == old(isLoading)
    {
      inputValue := text;
    }

    /**
     * `handleSendMessage`: blank input (empty once trimmed) is ignored;
     * otherwise the user's message is appended, the input cleared and the
     * bot marked busy. The sent text is returned for the delayed reply.
     * The input field and the send button are disabled while a reply is
     * pending, so a send only happens when none is.
     */
    method SendMessage(now: nat) returns (pending: Option<string>)
      requires !isLoading
      modifies this
      ensures IsBlank(old(inputValue)) ==>
                pending == None && messages == old(messages) && inputValue == old(inputValue)
                && !isLoading
      ensures !IsBlank(old(inputValue)) ==>
                && pending == Some(old(inputValue))
                && messages == old(messages) + [Message("msg-" + DecimalString(now), old(inputValue), User)]
                && inputValue == "" && isLoading
    {
      if IsBlank(inputValue) {
        return None;
      }
      messages := messages + [Message("msg-" + DecimalString(now), inputValue, User)];
      pending := Some(inputValue);
      inputValue := "";
      isLoading := true;
    }

    /** The delayed reply: one bot message answering `sent` is appended and the bot is no longer busy. */
    method DeliverReply(sent: string, now: nat, random: real)
      requires 0.0 <= random < 1.0
      modifies this
      ensures messages == old(messages) + [Message("msg-" + DecimalString(now) + "-bot", ReplyText(PickResponse(sent, random)), Bot)]
      ensures inputValue == old(inputValue) && !isLoading
    {
      messages := messages + [Message("msg-" + DecimalString(now) + "-bot", ReplyText(PickResponse(sent, random)), Bot)];
      isLoading := false;
    }
  }

  /** A non-blank message is answered from the list its keywords select, after the user's own message. */
  method Converse(chat: ChatState, text: string, now: nat, later: nat, random: real)
    requires 0.0 <= random < 1.0
    requires !IsBlank(text)
    requires !chat.isLoading
    modifies chat
    ensures |chat.messages| == |old(chat.messages)| + 2
    ensures chat.messages[|chat.messages| - 2] == Message("msg-" + DecimalString(now), text, User)
    ensures chat.messages[|chat.messages| - 1].sender == Bot
    ensures exists reply :: reply in Responses(Classify(text)) && chat.messages[|chat.messages| - 1].text == ReplyText(reply)
    ensures chat.inputValue == "" && !chat.isLoading
  {
    chat.Type(text);
    var pending := chat.SendMessage(now);
    chat.DeliverReply(pending.value, later, random);
    var reply := PickResponse(text, random);
    assert reply in Responses(Classify(text)) && chat.messages[|chat.messages| - 1].text == ReplyText(reply);
  }
}
