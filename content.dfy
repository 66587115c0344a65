/** The content surface: a fixed table of detail records keyed by card id, a
    grid of cards that select one of them, and a modal that shows the
    selected record. The markup of each record is opaque. */
module Content {
  import opened Wrappers
  import opened Types

  /** The descriptive block of a record: opaque markup, identified by the card
      it belongs to and the theme it was styled for. */
  datatype Markup = Markup(card: string, isDark: bool)

  /** A detail record: a title, optional subtitle, date, description and tags,
      and a block of content. */
  datatype Detail = Detail(
    title: string,
    subtitle: Option<string>,
    date: Option<string>,
    description: Option<string>,
    tags: Option<seq<string>>,
    content: Markup)

  /** The ids the table is keyed by. */
  const CardIds: set<string> :=
    {"contact", "resume", "devops", "no2", "disaster", "experience", "education", "genai", "certs", "skills"}

  /** The ids the grid's cards pass to the click handler, in page order. */
  const GridCards: seq<string> :=
    ["experience", "education", "devops", "skills", "contact", "no2", "disaster", "certs", "resume", "genai"]

  // The text fields of the records, named by card and field.
  const ContactTitle: string := "Let's Connect"
  const ContactLead: string := "I'm always open to discussing Generative AI, LLMs, or full-stack engineering opportunities."
  const ResumeTitle: string := "Resume / CV"
  const ResumeSubtitle: string := "Professional Journey"
  const ResumeLead: string := "A comprehensive overview of my experience, technical skills, and academic background."
  const DevopsTitle: string := "AWS & Docker DevOps"
  const DevopsSubtitle: string := "Containerized Application Deployment"
  const DevopsLead: string := "Orchestrated a complete CI/CD pipeline using AWS DevOps tools and Docker containers."
  const No2Title: string := "NO₂ Prediction Platform"
  const No2Subtitle: string := "ML Model & Visualization"
  const No2Lead: string := "Developed a Python ML model and Flask API with a React interface to predict and visualize nitrogen dioxide pollution levels."
  const DisasterTitle: string := "Disaster Info System"
  const DisasterSubtitle: string := "Real-Time Aggregation"
  const DisasterLead: string := "Built a real-time disaster data system using APIs, ReactJS, and cloud deployment to enhance NDRF’s response capabilities."
  const ExperienceTitle: string := "IBM SkillsBuild"
  const ExperienceSubtitle: string := "AI/ML Intern"
  const ExperienceDate: string := "Jun 2024 - Jul 2024"
  const EducationTitle: string := "CMR Engineering College"
  const EducationSubtitle: string := "B.Tech – CSE (Data Science)"
  const EducationDate: string := "Nov 2022 – Present"
  const GenaiTitle: string := "Generative AI Focus"
  const GenaiSubtitle: string := "LLMs & RAG Architectures"
  const GenaiLead: string := "Currently exploring the frontiers of Large Language Models, Vector Databases, and Agentic Workflows."
  const CertsTitle: string := "Certifications & Achievements"
  const CertsSubtitle: string := "Credentials & Milestones"
  const SkillsTitle: string := "Technical Expertise"
  const SkillsSubtitle: string := "Full Stack & Data Science"
  const SkillsLead: string := "A comprehensive breakdown of my technical toolkit, ranging from core programming to advanced AI implementation."

  /** The record a card id stands for in the given theme. */
  function Record(id: string, isDark: bool): (r: Detail)
    requires id in CardIds
    ensures r.title != ""
    ensures r.content == Markup(id, isDark)
  {
    var body := Markup(id, isDark);
    if id == "contact" then
      Detail(ContactTitle, None, None, Some(ContactLead),
        None, body)
    else if id == "resume" then
      Detail(ResumeTitle, Some(ResumeSubtitle), None, Some(ResumeLead),
        None, body)
    else if id == "devops" then
      Detail(DevopsTitle, Some(DevopsSubtitle), None, Some(DevopsLead),
        Some(["Docker", "AWS ECS/EKS", "CodePipeline", "CloudWatch"]), body)
    else if id == "no2" then
      Detail(No2Title, Some(No2Subtitle), None, Some(No2Lead),
        Some(["Python", "Machine Learning", "Flask", "ReactJS"]), body)
    else if id == "disaster" then
      Detail(DisasterTitle, Some(DisasterSubtitle), None, Some(DisasterLead),
        Some(["ReactJS", "APIs", "Cloud Deployment"]), body)
    else if id == "experience" then
      Detail(ExperienceTitle, Some(ExperienceSubtitle), Some(ExperienceDate), None, None, body)
    else if id == "education" then
      Detail(EducationTitle, Some(EducationSubtitle), Some(EducationDate), None, None, body)
    else if id == "genai" then
      Detail(GenaiTitle, Some(GenaiSubtitle), None, Some(GenaiLead),
        Some(["LangChain", "OpenAI API", "Hugging Face", "Pinecone"]), body)
    else if id == "certs" then
      Detail(CertsTitle, Some(CertsSubtitle), None, None, None, body)
    else
      Detail(SkillsTitle, Some(SkillsSubtitle), None, Some(SkillsLead),
        Some(["Full Stack", "Data Science", "DevOps"]), body)
  }

  /** The table of detail records for the given theme. */
  function CardDetails(isDark: bool): (r: map<string, Detail>)
    ensures r.Keys == CardIds
    ensures forall id :: id in r ==> r[id].content == Markup(id, isDark)
  {
    map id | id in CardIds :: Record(id, isDark)
  }

  /** The table has the same ten keys in both themes. */
  lemma TableKeys(isDark: bool)
    ensures CardDetails(isDark).Keys == CardIds
    ensures CardDetails(isDark).Keys == CardDetails(!isDark).Keys
  {
  }

  /** The theme changes only the styling of each record's content block. */
  lemma TableThemeIndependent(id: string)
    requires id in CardIds
    ensures CardDetails(true)[id].(content := CardDetails(false)[id].content) == CardDetails(false)[id]
    ensures CardDetails(true)[id].content.card == CardDetails(false)[id].content.card == id
  {
  }

  /** Which optional fields each record carries: every record has a title; a
      date only the two timeline records; tags exactly the project, focus and
      skills records; a subtitle all but the contact record; a description
      all but the timeline and certification records. */
  lemma RecordFields(isDark: bool, id: string)
    requires id in CardDetails(isDark)
    ensures CardDetails(isDark)[id].title != ""
    ensures CardDetails(isDark)[id].date.Some? <==> id in {"experience", "education"}
    ensures CardDetails(isDark)[id].tags.Some? <==> id in {"devops", "no2", "disaster", "genai", "skills"}
    ensures CardDetails(isDark)[id].subtitle.Some? <==> id != "contact"
    ensures CardDetails(isDark)[id].description.Some? <==> id !in {"experience", "education", "certs"}
  {
  }

  /** Every card of the grid passes a known id, each card its own, and every
      record has a card. */
  lemma GridCardsKnown()
    ensures |GridCards| == |CardIds|
    ensures forall i :: 0 <= i < |GridCards| ==> GridCards[i] in CardIds
    ensures forall i, j :: 0 <= i < j < |GridCards| ==> GridCards[i] != GridCards[j]
    ensures forall id :: id in CardIds ==> id in GridCards
  {
  }

  /** One section of the open modal, in the order the modal lays them out. */
  datatype Section =
    | DateLine(date: string)
    | Heading(title: string)
    | SubHeading(subtitle: string)
    | Lead(description: string)
    | Body(content: Markup)
    | Badges(tags: seq<string>)

  /** The sections of the modal for a record, top to bottom. A string field
      renders only when present and non-empty (the empty string is falsy);
      the tag list renders whenever present, an empty array being truthy. */
  function RenderModal(d: Detail): (r: seq<Section>)
    ensures Heading(d.title) in r && Body(d.content) in r
    ensures forall v :: DateLine(v) in r <==> d.date == Some(v) && v != ""
    ensures forall v :: SubHeading(v) in r <==> d.subtitle == Some(v) && v != ""
    ensures forall v :: Lead(v) in r <==> d.description == Some(v) && v != ""
    ensures forall v :: Badges(v) in r <==> d.tags == Some(v)
  {
    var date := if d.date.Some? && d.date.value != "" then [DateLine(d.date.value)] else [];
    var subtitle := if d.subtitle.Some? && d.subtitle.value != "" then [SubHeading(d.subtitle.value)] else [];
    var description := if d.description.Some? && d.description.value != "" then [Lead(d.description.value)] else [];
    var tags := if d.tags.Some? then [Badges(d.tags.value)] else [];
    date + [Heading(d.title)] + subtitle + description + [Body(d.content)] + tags
  }

  /** Keys that every plain object inherits from Object.prototype; looking
      one of them up in the table gives a truthy value. */
  const InheritedKeys: set<string> :=
    {"constructor", "hasOwnProperty", "isPrototypeOf", "propertyIsEnumerable",
     "toLocaleString", "toString", "valueOf", "__proto__",
     "__defineGetter__", "__defineSetter__", "__lookupGetter__", "__lookupSetter__"}

  /** The click guard as written: a truthiness test on the table object. Every
      own record passes it (records are objects), and the only other ids that
      pass are the inherited members. */
  function ClickAcceptedAsWritten(isDark: bool, id: string): (accepted: bool)
    ensures id in CardDetails(isDark) ==> accepted
    ensures accepted && id !in CardDetails(isDark) ==> id in InheritedKeys
  {
    id in CardDetails(isDark) || id in InheritedKeys
  }

  /** The as-written guard lets an id that has no record through. */
  lemma InheritedKeyAccepted(isDark: bool)
    ensures ClickAcceptedAsWritten(isDark, "toString")
    ensures "toString" !in CardDetails(isDark)
  {
  }

  /** On the ids the grid actually passes, the as-written guard and the
      membership test agree, so the page as shipped never shows the
      difference. */
  lemma AsWrittenAgreesOnGrid(isDark: bool)
    ensures forall i :: 0 <= i < |GridCards| ==>
      ClickAcceptedAsWritten(isDark, GridCards[i]) && GridCards[i] in CardDetails(isDark)
    ensures forall id :: id in InheritedKeys ==> id !in CardDetails(isDark)
  {
    GridCardsKnown();
    InheritedKeysUnknown();
  }

  /** No inherited member name is a card id. */
  lemma InheritedKeysUnknown()
    ensures InheritedKeys !! CardIds
  {
  }

  /** The content component: its theme prop and its selected card. */
  class ContentComponent {
    var isDark: bool
    var selectedId: Option<string>

    constructor (theme: Theme)
      ensures isDark == (theme == Dark)
      ensures selectedId == None
    {
      isDark := theme == Dark;
      selectedId := None;
    }

    /** The record the modal shows, if it is open: it is open exactly when an
        id is selected and the table has it. */
    function ModalDetail(): (r: Option<Detail>)
      reads this
      ensures r.Some? <==> selectedId.Some? && selectedId.value in CardDetails(isDark)
      ensures r.Some? ==> r.value == CardDetails(isDark)[selectedId.value]
    {
      match selectedId
      case None => None
      case Some(id) => if id in CardDetails(isDark) then Some(CardDetails(isDark)[id]) else None
    }

    /** A card click: select the id only if the table has a record for it. */
    method HandleCardClick(id: string)
      modifies this`selectedId
      ensures id in CardDetails(isDark) ==> selectedId == Some(id)
      ensures id !in CardDetails(isDark) ==> selectedId == old(selectedId)
      ensures id in GridCards ==> ModalDetail() == Some(CardDetails(isDark)[id])
    {
      if id in CardDetails(isDark) {
        selectedId := Some(id);
      }
    }

    /** A click on the backdrop closes the modal. */
    method CloseFromBackdrop()
      modifies this`selectedId
      ensures selectedId == None && ModalDetail() == None
    {
      selectedId := None;
    }

    /** The close button closes the modal (its click does not reach the
        backdrop, so the selection is cleared once). */
    method CloseFromButton()
      modifies this`selectedId
      ensures selectedId == None && ModalDetail() == None
    {
      selectedId := None;
    }

    /** A re-render with a new theme prop keeps the selection, and because both
        themes' tables have the same keys the modal stays open or closed. */
    method ReceiveTheme(theme: Theme)
      modifies this`isDark
      ensures isDark == (theme == Dark)
      ensures ModalDetail().Some? == old(ModalDetail().Some?)
    {
      TableKeys(isDark);
      isDark := theme == Dark;
    }
  }
}
