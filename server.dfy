/** The server's pure parts: the domain-knowledge lookup behind the
    agent-action endpoint, and the key scheme and user guard of the
    key-value handlers, with the store abstracted as a map. */
module Server {
  import opened Base
  import opened Entities

  /** A task suggestion: `{ title, description, priority, taskType }`. */
  datatype TaskIdea = TaskIdea(title: string, description: string, priority: Priority, taskType: TaskType)

  /** What the server knows about one role in one domain. */
  datatype Knowledge = Knowledge(messages: seq<string>, tasks: seq<TaskIdea>)

  /** The answer of `generateDomainSpecificAction` when it is not null. */
  datatype Action = SaysMessage(text: string) | SuggestsTask(idea: TaskIdea)

  /** The five domains the server's `domainKnowledge` table (index.tsx:194-415) has. */
  datatype KnownDomain = Saas | Ecommerce | Fintech | Healthcare | Edtech

  function DomainOf(domain: string): (r: Option<KnownDomain>)
    ensures r.Some? <==> domain in {"saas", "ecommerce", "fintech", "healthcare", "edtech"}
    ensures r == Some(Saas) <==> domain == "saas"
  {
    if domain == "saas" then Some(Saas)
    else if domain == "ecommerce" then Some(Ecommerce)
    else if domain == "fintech" then Some(Fintech)
    else if domain == "healthcare" then Some(Healthcare)
    else if domain == "edtech" then Some(Edtech)
    else None
  }

  /** The roles the server's table has entries for. */
  datatype Desk = CeoDesk | DeveloperDesk | MarketerDesk

  function DeskOf(role: Role): (r: Option<Desk>)
    ensures r.Some? <==> role in {CeoRole, DeveloperRole, MarketerRole}
  {
    match role
    case CeoRole => Some(CeoDesk)
    case DeveloperRole => Some(DeveloperDesk)
    case MarketerRole => Some(MarketerDesk)
    case _ => None
  }

  /** Each entry of the table holds five messages and three task ideas. */
  const MessagesPerDesk: nat := 5
  const IdeasPerDesk: nat := 3

  /** Message `k` of `domainKnowledge[domain][role].messages` (index.tsx:194-415). */
  function Said(d: KnownDomain, desk: Desk, k: nat): string
    requires k < MessagesPerDesk
  {
    match d
    case Saas => (match desk
      case CeoDesk => SaasCeoMessage(k)
      case DeveloperDesk => SaasDeveloperMessage(k)
      case MarketerDesk => SaasMarketerMessage(k))
    case Ecommerce => (match desk
      case CeoDesk => EcommerceCeoMessage(k)
      case DeveloperDesk => EcommerceDeveloperMessage(k)
      case MarketerDesk => EcommerceMarketerMessage(k))
    case Fintech => (match desk
      case CeoDesk => FintechCeoMessage(k)
      case DeveloperDesk => FintechDeveloperMessage(k)
      case MarketerDesk => FintechMarketerMessage(k))
    case Healthcare => (match desk
      case CeoDesk => HealthcareCeoMessage(k)
      case DeveloperDesk => HealthcareDeveloperMessage(k)
      case MarketerDesk => HealthcareMarketerMessage(k))
    case Edtech => (match desk
      case CeoDesk => EdtechCeoMessage(k)
      case DeveloperDesk => EdtechDeveloperMessage(k)
      case MarketerDesk => EdtechMarketerMessage(k))
  }

  /** Task idea `k` of `domainKnowledge[domain][role].tasks`. */
  function Idea(d: KnownDomain, desk: Desk, k: nat): TaskIdea
    requires k < IdeasPerDesk
  {
    match d
    case Saas => (match desk
      case CeoDesk => SaasCeoIdea(k)
      case DeveloperDesk => SaasDeveloperIdea(k)
      case MarketerDesk => SaasMarketerIdea(k))
    case Ecommerce => (match desk
      case CeoDesk => EcommerceCeoIdea(k)
      case DeveloperDesk => EcommerceDeveloperIdea(k)
      case MarketerDesk => EcommerceMarketerIdea(k))
    case Fintech => (match desk
      case CeoDesk => FintechCeoIdea(k)
      case DeveloperDesk => FintechDeveloperIdea(k)
      case MarketerDesk => FintechMarketerIdea(k))
    case Healthcare => (match desk
      case CeoDesk => HealthcareCeoIdea(k)
      case DeveloperDesk => HealthcareDeveloperIdea(k)
      case MarketerDesk => HealthcareMarketerIdea(k))
    case Edtech => (match desk
      case CeoDesk => EdtechCeoIdea(k)
      case DeveloperDesk => EdtechDeveloperIdea(k)
      case MarketerDesk => EdtechMarketerIdea(k))
  }

  function SaasCeoMessage(k: nat): string {
    if k == 0 then "Let's focus on reducing customer churn - it's 5x cheaper than acquiring new users"
    else if k == 1 then "We need to improve our activation rate. Only 40% of signups complete onboarding"
    else if k == 2 then "Time to explore a product-led growth strategy with a freemium tier"
    else if k == 3 then "Our CAC is too high. Let's double down on content marketing and SEO"
    else "Should we consider adding enterprise features for upmarket expansion?"
  }

  function SaasCeoIdea(k: nat): TaskIdea {
    if k == 0 then TaskIdea("Analyze user cohort retention", "Review monthly cohort analysis and identify drop-off points", High, PlanningTask)
    else if k == 1 then TaskIdea("Define pricing tier strategy", "Research competitor pricing and create tiered model", High, PlanningTask)
    else TaskIdea("Plan product roadmap for Q2", "Prioritize features based on customer feedback and metrics", Medium, PlanningTask)
  }

  function SaasDeveloperMessage(k: nat): string {
    if k == 0 then "Implementing webhook system for better integration capabilities"
    else if k == 1 then "Building API rate limiting to prevent abuse and ensure stability"
    else if k == 2 then "Adding multi-tenancy support for enterprise customers"
    else if k == 3 then "Optimizing database queries - reduced load time by 60%"
    else "Setting up automated scaling for traffic spikes"
  }

  function SaasDeveloperIdea(k: nat): TaskIdea {
    if k == 0 then TaskIdea("Build SSO integration", "Implement SAML/OAuth for enterprise SSO", High, FeatureTask)
    else if k == 1 then TaskIdea("Create REST API v2", "Design and implement versioned API with better docs", High, FeatureTask)
    else TaskIdea("Add usage analytics", "Track feature usage and user behavior patterns", Medium, FeatureTask)
  }

  function SaasMarketerMessage(k: nat): string {
    if k == 0 then "Our trial-to-paid conversion is at 18% - industry average is 25%"
    else if k == 1 then "Content marketing is driving 40% of our organic signups"
    else if k == 2 then "Planning product hunt launch for next month - need assets ready"
    else if k == 3 then "User testimonials increased conversion by 12% - need more case studies"
    else "Implementing drip email campaigns for trial users"
  }

  function SaasMarketerIdea(k: nat): TaskIdea {
    if k == 0 then TaskIdea("Create comparison pages", "Build SEO-optimized competitor comparison pages", High, MarketingTask)
    else if k == 1 then TaskIdea("Launch referral program", "Design and implement customer referral incentives", Medium, MarketingTask)
    else TaskIdea("Product demo videos", "Create walkthrough videos for key features", Medium, MarketingTask)
  }

  function EcommerceCeoMessage(k: nat): string {
    if k == 0 then "Cart abandonment rate is 70% - we need to address this immediately"
    else if k == 1 then "Let's explore subscription box model to increase LTV"
    else if k == 2 then "Should we expand to Amazon FBA or focus on DTC strategy?"
    else if k == 3 then "Mobile conversion is 30% lower than desktop - major opportunity"
    else "Need to optimize for faster checkout - every second costs us conversions"
  }

  function EcommerceCeoIdea(k: nat): TaskIdea {
    if k == 0 then TaskIdea("Analyze shopping behavior", "Deep dive into cart abandonment reasons", High, PlanningTask)
    else if k == 1 then TaskIdea("Expansion strategy research", "Evaluate marketplace vs DTC growth paths", High, PlanningTask)
    else TaskIdea("Loyalty program design", "Create customer retention program structure", Medium, PlanningTask)
  }

  function EcommerceDeveloperMessage(k: nat): string {
    if k == 0 then "Implementing one-click checkout to reduce friction"
    else if k == 1 then "Building product recommendation engine with ML"
    else if k == 2 then "Optimizing image loading - improved page speed by 40%"
    else if k == 3 then "Adding inventory management system integration"
    else "Setting up abandoned cart recovery emails"
  }

  function EcommerceDeveloperIdea(k: nat): TaskIdea {
    if k == 0 then TaskIdea("Payment gateway integration", "Add Apple Pay, Google Pay, and Buy Now Pay Later", High, FeatureTask)
    else if k == 1 then TaskIdea("Build wishlist feature", "Allow users to save items for later", Medium, FeatureTask)
    else TaskIdea("Size recommendation tool", "ML-based size fitting recommendations", Medium, FeatureTask)
  }

  function EcommerceMarketerMessage(k: nat): string {
    if k == 0 then "Facebook ads ROA is 3.2x - scaling winning campaigns"
    else if k == 1 then "Email marketing generates 30% of revenue - highest ROI channel"
    else if k == 2 then "User-generated content increased trust and conversion by 15%"
    else if k == 3 then "Planning flash sale for weekend - expecting 200% traffic spike"
    else "Influencer partnerships driving quality traffic and brand awareness"
  }

  function EcommerceMarketerIdea(k: nat): TaskIdea {
    if k == 0 then TaskIdea("Create seasonal campaigns", "Plan holiday shopping campaign strategy", High, MarketingTask)
    else if k == 1 then TaskIdea("Optimize product pages", "A/B test product descriptions and images", High, MarketingTask)
    else TaskIdea("Build ambassador program", "Recruit and manage brand ambassadors", Medium, MarketingTask)
  }

  function FintechCeoMessage(k: nat): string {
    if k == 0 then "Compliance is critical - we need SOC 2 Type 2 before Series A"
    else if k == 1 then "Transaction volume growing 25% MoM but we need better unit economics"
    else if k == 2 then "Exploring banking-as-a-service partnerships for embedded finance"
    else if k == 3 then "Fraud prevention is paramount - one major incident could destroy trust"
    else "Should we apply for our own banking charter or continue with partners?"
  }

  function FintechCeoIdea(k: nat): TaskIdea {
    if k == 0 then TaskIdea("Regulatory compliance audit", "Prepare for upcoming compliance review", High, PlanningTask)
    else if k == 1 then TaskIdea("Partnership strategy", "Evaluate potential banking and card network partners", High, PlanningTask)
    else TaskIdea("Risk management framework", "Develop comprehensive risk assessment process", High, PlanningTask)
  }

  function FintechDeveloperMessage(k: nat): string {
    if k == 0 then "Implementing real-time fraud detection with ML models"
    else if k == 1 then "Building PCI DSS compliant payment processing system"
    else if k == 2 then "Adding 2FA and biometric authentication for security"
    else if k == 3 then "Creating audit logging for all financial transactions"
    else "Optimizing transaction processing - now sub-100ms latency"
  }

  function FintechDeveloperIdea(k: nat): TaskIdea {
    if k == 0 then TaskIdea("Build KYC verification", "Integrate identity verification service", High, FeatureTask)
    else if k == 1 then TaskIdea("Transaction monitoring", "Real-time anomaly detection system", High, FeatureTask)
    else TaskIdea("Implement ACH payments", "Add bank transfer capabilities", Medium, FeatureTask)
  }

  function FintechMarketerMessage(k: nat): string {
    if k == 0 then "Trust is everything in fintech - highlighting security in all messaging"
    else if k == 1 then "Educational content performing well - people need to understand how we work"
    else if k == 2 then "Partnerships with financial influencers building credibility"
    else if k == 3 then "Referral program driving 40% of new users - incentives work in fintech"
    else "Comparison tools showing we save users $500/year on average"
  }

  function FintechMarketerIdea(k: nat): TaskIdea {
    if k == 0 then TaskIdea("Create trust badges", "Design security and compliance badge system", High, MarketingTask)
    else if k == 1 then TaskIdea("Financial literacy content", "Build educational blog and video content", Medium, MarketingTask)
    else TaskIdea("Launch savings calculator", "Interactive tool showing potential savings", Medium, MarketingTask)
  }

  function HealthcareCeoMessage(k: nat): string {
    if k == 0 then "HIPAA compliance is non-negotiable - every feature needs security review"
    else if k == 1 then "Patient data privacy must be our top priority in every decision"
    else if k == 2 then "Telemedicine demand up 300% - need to scale infrastructure"
    else if k == 3 then "Provider network expansion critical for market penetration"
    else "Insurance integration complexity is slowing us down - need strategy"
  }

  function HealthcareCeoIdea(k: nat): TaskIdea {
    if k == 0 then TaskIdea("HIPAA audit preparation", "Complete security and privacy compliance review", High, PlanningTask)
    else if k == 1 then TaskIdea("Provider onboarding", "Streamline medical professional registration", High, PlanningTask)
    else TaskIdea("Payer partnerships", "Negotiate insurance coverage agreements", Medium, PlanningTask)
  }

  function HealthcareDeveloperMessage(k: nat): string {
    if k == 0 then "Implementing end-to-end encryption for all patient data"
    else if k == 1 then "Building FHIR-compliant API for EHR integration"
    else if k == 2 then "Adding secure video conferencing for telehealth"
    else if k == 3 then "Creating patient consent management system"
    else "Optimizing prescription refill workflow"
  }

  function HealthcareDeveloperIdea(k: nat): TaskIdea {
    if k == 0 then TaskIdea("Build appointment scheduling", "Real-time availability and booking system", High, FeatureTask)
    else if k == 1 then TaskIdea("E-prescribing integration", "Connect to pharmacy networks", High, FeatureTask)
    else TaskIdea("Lab results portal", "Secure test results viewing for patients", Medium, FeatureTask)
  }

  function HealthcareMarketerMessage(k: nat): string {
    if k == 0 then "Patient testimonials are powerful - real stories build trust"
    else if k == 1 then "Educational content about preventive care resonates strongly"
    else if k == 2 then "Provider credentials and expertise must be highlighted"
    else if k == 3 then "Mobile-first approach critical - most users book on phones"
    else "Community outreach programs building local brand awareness"
  }

  function HealthcareMarketerIdea(k: nat): TaskIdea {
    if k == 0 then TaskIdea("Patient education series", "Create health literacy content library", High, MarketingTask)
    else if k == 1 then TaskIdea("Provider spotlights", "Feature medical professional backgrounds", Medium, MarketingTask)
    else TaskIdea("Symptom checker tool", "Interactive health assessment tool", Medium, MarketingTask)
  }

  function EdtechCeoMessage(k: nat): string {
    if k == 0 then "Course completion rate is 65% - need to improve engagement"
    else if k == 1 then "Exploring B2B sales to enterprises and educational institutions"
    else if k == 2 then "Accreditation will open doors to traditional education market"
    else if k == 3 then "Student success metrics are our North Star - everything ties to outcomes"
    else "Should we focus on upskilling professionals or K-12 market?"
  }

  function EdtechCeoIdea(k: nat): TaskIdea {
    if k == 0 then TaskIdea("Define learning outcomes", "Establish measurable success criteria", High, PlanningTask)
    else if k == 1 then TaskIdea("Enterprise package design", "Create B2B offering for companies", High, PlanningTask)
    else TaskIdea("Instructor recruitment", "Build pipeline for quality educators", Medium, PlanningTask)
  }

  function EdtechDeveloperMessage(k: nat): string {
    if k == 0 then "Building adaptive learning algorithm to personalize content"
    else if k == 1 then "Implementing progress tracking and achievements system"
    else if k == 2 then "Adding live class features with breakout rooms"
    else if k == 3 then "Creating mobile app for offline learning"
    else "Optimizing video streaming for low-bandwidth areas"
  }

  function EdtechDeveloperIdea(k: nat): TaskIdea {
    if k == 0 then TaskIdea("Build quiz engine", "Interactive assessment and feedback system", High, FeatureTask)
    else if k == 1 then TaskIdea("Discussion forums", "Student-teacher communication platform", Medium, FeatureTask)
    else TaskIdea("Certificate system", "Generate completion certificates", Medium, FeatureTask)
  }

  function EdtechMarketerMessage(k: nat): string {
    if k == 0 then "Free trial-to-paid conversion at 22% - solid but can improve"
    else if k == 1 then "Student success stories are our best marketing asset"
    else if k == 2 then "SEO for \"how to learn X\" queries driving quality traffic"
    else if k == 3 then "Partnership with career platforms boosting enrollment"
    else "LinkedIn ads performing well for professional upskilling courses"
  }

  function EdtechMarketerIdea(k: nat): TaskIdea {
    if k == 0 then TaskIdea("Create course previews", "Free sample lessons to showcase value", High, MarketingTask)
    else if k == 1 then TaskIdea("Alumni network", "Build community of successful graduates", Medium, MarketingTask)
    else TaskIdea("Scholarship program", "Offer need-based learning opportunities", Medium, MarketingTask)
  }

  /** `domainKnowledge[domain][role]`: each domain's table holds the CEO,
      the developer and the marketer. */
  function RoleTable(d: KnownDomain, role: Role): (r: Option<Knowledge>)
    ensures r.Some? <==> role in {CeoRole, DeveloperRole, MarketerRole}
    ensures r.Some? ==> |r.value.messages| == MessagesPerDesk && |r.value.tasks| == IdeasPerDesk
  {
    match DeskOf(role)
    case None => None
    case Some(desk) =>
      Some(Knowledge(seq(MessagesPerDesk, k requires 0 <= k < MessagesPerDesk => Said(d, desk, k)),
                     seq(IdeasPerDesk, k requires 0 <= k < IdeasPerDesk => Idea(d, desk, k))))
  }

  /** `domainKnowledge[domain]?.[agentId] || domainKnowledge.saas?.[agentId]`. */
  function Lookup(domain: string, agentId: string): (r: Option<Knowledge>)
  {
    match RoleOf(agentId)
    case None => None
    case Some(role) =>
      var own := if DomainOf(domain).Some? then RoleTable(DomainOf(domain).value, role) else None;
      if own.Some? then own else RoleTable(Saas, role)
  }

  /** The lookup takes the requested domain's table when it has the role and
      otherwise SaaS's table for the same role; an agent no table knows gets nothing. */
  lemma LookupFallback(domain: string, agentId: string)
    ensures DomainOf(domain).Some? && RoleOf(agentId).Some? && RoleTable(DomainOf(domain).value, RoleOf(agentId).value).Some? ==>
      Lookup(domain, agentId) == RoleTable(DomainOf(domain).value, RoleOf(agentId).value)
    ensures DomainOf(domain).None? ==> Lookup(domain, agentId) == Lookup("saas", agentId)
    ensures Lookup(domain, agentId).Some? <==> agentId in {"ceo", "developer", "marketer"}
  {
  }

  /** `generateDomainSpecificAction(agentId, domain, context, actionType)`;
      `pick` is its draw of Math.random() and `context` is never read. */
  function GenerateDomainSpecificAction(agentId: string, domain: string, actionType: string, pick: Unit): (r: Option<Action>)
    ensures r.Some? <==> Lookup(domain, agentId).Some? && (actionType == "message" || actionType == "task")
    ensures r.Some? && actionType == "message" ==>
      r.value.SaysMessage? && r.value.text in Lookup(domain, agentId).value.messages
    ensures r.Some? && actionType == "task" ==>
      r.value.SuggestsTask? && r.value.idea in Lookup(domain, agentId).value.tasks
  {
    match Lookup(domain, agentId)
    case None => None
    case Some(k) =>
      if actionType == "message" then Some(SaysMessage(k.messages[Pick(pick, |k.messages|)]))
      else if actionType == "task" then Some(SuggestsTask(k.tasks[Pick(pick, |k.tasks|)]))
      else None
  }

  /** A domain without a table behaves as SaaS, role by role. */
  lemma UnknownDomainIsSaas(agentId: string, domain: string, actionType: string, pick: Unit)
    requires DomainOf(domain).None?
    ensures GenerateDomainSpecificAction(agentId, domain, actionType, pick) ==
      GenerateDomainSpecificAction(agentId, "saas", actionType, pick)
  {
  }

  /** Only the CEO, the developer and the marketer have knowledge; any other
      agent gets null, whatever the domain. */
  lemma OtherRolesGetNull(agentId: string, domain: string, actionType: string, pick: Unit)
    ensures GenerateDomainSpecificAction(agentId, domain, actionType, pick).None? <==>
      (agentId !in {"ceo", "developer", "marketer"} || (actionType != "message" && actionType != "task"))
  {
    LookupFallback(domain, agentId);
  }

  // ---- the key-value store behind the handlers ----

  /** The listing prefix of one user's saved simulations. */
  function SimulationPrefix(userId: string): (p: string)
    ensures |p| == |userId| + 12
  {
    "simulation:" + userId + ":"
  }

  /** `simulation:${user.id}:${id}`, the key save and delete use. */
  function SimulationKey(userId: string, id: string): (k: string)
    ensures SimulationPrefix(userId) <= k
    ensures k[|SimulationPrefix(userId)|..] == id
  {
    SimulationPrefix(userId) + id
  }

  /** `settings:${user.id}`. */
  function SettingsKey(userId: string): (k: string)
    ensures |k| == |userId| + 9 && k[..9] == "settings:" && k[9..] == userId
  {
    "settings:" + userId
  }

  /** A settings key is never a simulation key. */
  lemma KeySpacesDisjoint(u: string, v: string, id: string)
    ensures SettingsKey(u) != SimulationKey(v, id)
  {
    assert SettingsKey(u)[1] == 'e';
    assert SimulationKey(v, id)[1] == 'i';
  }

  /** Both key schemes are injective for colon-free user ids (Supabase's
      ids are UUIDs). */
  lemma SimulationKeyInjective(u: string, v: string, i: string, j: string)
    requires ':' !in u && ':' !in v
    requires SimulationKey(u, i) == SimulationKey(v, j)
    ensures u == v && i == j
  {
    ColonFreeSplit(u, i, v, j, SimulationKey(u, i)[11..]);
  }

  /** Another colon-free user's keys never fall under this user's listing prefix. */
  lemma PrefixSeparatesUsers(u: string, v: string, id: string)
    requires ':' !in u && ':' !in v && u != v
    ensures !(SimulationPrefix(u) <= SimulationKey(v, id))
  {
    if SimulationPrefix(u) <= SimulationKey(v, id) {
      var rest := SimulationKey(v, id)[|SimulationPrefix(u)|..];
      assert SimulationKey(v, id) == SimulationKey(u, rest);
      ColonFreeSplit(u, rest, v, id, SimulationKey(v, id)[11..]);
    }
  }

  /** A colon-free head is recovered from `head + ":" + tail`. */
  lemma ColonFreeSplit(u: string, i: string, v: string, j: string, s: string)
    requires ':' !in u && ':' !in v
    requires s == u + ":" + i && s == v + ":" + j
    ensures u == v && i == j
  {
    FirstColonOf(u, i);
    FirstColonOf(v, j);
    assert u == s[..|u|] && v == s[..|v|];
    assert i == s[|u| + 1..] && j == s[|v| + 1..];
  }

  /** The position of the first colon (the length when there is none). */
  function FirstColon(s: string): (n: nat)
    ensures n <= |s|
    decreases |s|
  {
    if s == [] || s[0] == ':' then 0 else 1 + FirstColon(s[1..])
  }

  lemma {:induction false} FirstColonOf(u: string, i: string)
    requires ':' !in u
    ensures FirstColon(u + ":" + i) == |u|
    decreases |u|
  {
    var s := u + ":" + i;
    if u != [] {
      assert s[0] == u[0];
      assert s[1..] == u[1..] + ":" + i;
      FirstColonOf(u[1..], i);
    }
  }

  /** Why the colon-free condition matters: user "a" saving id "b:c" writes a
      key that user "a:b" lists. */
  lemma ColonInUserIdLeaks()
    ensures SimulationPrefix("a:b") <= SimulationKey("a", "b:c")
  {
  }

  /** What a handler stores: the request body with `userId` and `updatedAt` added. */
  datatype Stored = Stored(body: Blob, userId: string, updatedAt: string)

  /** A request body: a simulation (carrying its own `id`) or the settings. */
  datatype Blob = SimulationBlob(id: string, simulation: SavedSimulation) | SettingsBlob(settings: Settings)

  type Store = map<string, Stored>

  datatype Response =
    | Unauthorized
    | SimulationSaved(id: string)
    | Simulations(items: set<Stored>)
    | Deleted
    | SettingsSaved
    | SettingsFound(settings: Option<Stored>)

  /** `user` is the authenticated user's id, or None when the token is
      missing or invalid; `now` is `new Date().toISOString()`. */
  function SaveSimulation(store: Store, user: Option<string>, id: string, sim: SavedSimulation, now: string): (r: (Response, Store))
    ensures user.None? ==> r == (Unauthorized, store)
    ensures user.Some? ==>
      r.0 == SimulationSaved(id) &&
      r.1 == store[SimulationKey(user.value, id) := Stored(SimulationBlob(id, sim), user.value, now)]
  {
    match user
    case None => (Unauthorized, store)
    case Some(uid) => (SimulationSaved(id), store[SimulationKey(uid, id) := Stored(SimulationBlob(id, sim), uid, now)])
  }

  /** `kv.getByPrefix("simulation:<uid>:")`; the store's order is not modelled. */
  function ListSimulations(store: Store, user: Option<string>): (r: Response)
    ensures user.None? ==> r == Unauthorized
    ensures user.Some? ==>
      r.Simulations? &&
      forall x :: x in r.items <==> exists k :: k in store && SimulationPrefix(user.value) <= k && store[k] == x
  {
    match user
    case None => Unauthorized
    case Some(uid) => Simulations(set k | k in store && SimulationPrefix(uid) <= k :: store[k])
  }

  function DeleteSimulation(store: Store, user: Option<string>, id: string): (r: (Response, Store))
    ensures user.None? ==> r == (Unauthorized, store)
    ensures user.Some? ==> r.0 == Deleted && r.1 == store - {SimulationKey(user.value, id)}
  {
    match user
    case None => (Unauthorized, store)
    case Some(uid) => (Deleted, store - {SimulationKey(uid, id)})
  }

  function SaveSettings(store: Store, user: Option<string>, settings: Settings, now: string): (r: (Response, Store))
    ensures user.None? ==> r == (Unauthorized, store)
    ensures user.Some? ==>
      r.0 == SettingsSaved &&
      r.1 == store[SettingsKey(user.value) := Stored(SettingsBlob(settings), user.value, now)]
  {
    match user
    case None => (Unauthorized, store)
    case Some(uid) => (SettingsSaved, store[SettingsKey(uid) := Stored(SettingsBlob(settings), uid, now)])
  }

  function LoadSettings(store: Store, user: Option<string>): (r: Response)
    ensures user.None? ==> r == Unauthorized
    ensures user.Some? ==> r == SettingsFound(if SettingsKey(user.value) in store then Some(store[SettingsKey(user.value)]) else None)
  {
    match user
    case None => Unauthorized
    case Some(uid) => SettingsFound(if SettingsKey(uid) in store then Some(store[SettingsKey(uid)]) else None)
  }

  /** A saved simulation shows up in its owner's listing, stamped with the owner. */
  lemma SavedIsListed(store: Store, uid: string, id: string, sim: SavedSimulation, now: string)
    ensures var s := SaveSimulation(store, Some(uid), id, sim, now).1;
      Stored(SimulationBlob(id, sim), uid, now) in ListSimulations(s, Some(uid)).items
  {
    var s := SaveSimulation(store, Some(uid), id, sim, now).1;
    var k := SimulationKey(uid, id);
    assert k in s && SimulationPrefix(uid) <= k && s[k] == Stored(SimulationBlob(id, sim), uid, now);
  }

  /** Delete removes exactly the key save wrote: saving then deleting leaves
      the store as it was without that key. */
  lemma SaveThenDelete(store: Store, uid: string, id: string, sim: SavedSimulation, now: string)
    ensures DeleteSimulation(SaveSimulation(store, Some(uid), id, sim, now).1, Some(uid), id).1 ==
      store - {SimulationKey(uid, id)}
  {
  }

  /** Every blob a signed-in user writes carries that user's id; nothing
      else in the store changes. */
  lemma WritesAreStamped(store: Store, uid: string, id: string, sim: SavedSimulation, settings: Settings, now: string)
    ensures var s := SaveSimulation(store, Some(uid), id, sim, now).1;
      s[SimulationKey(uid, id)].userId == uid &&
      forall k :: k in store && k != SimulationKey(uid, id) ==> k in s && s[k] == store[k]
    ensures var s := SaveSettings(store, Some(uid), settings, now).1;
      s[SettingsKey(uid)].userId == uid &&
      forall k :: k in store && k != SettingsKey(uid) ==> k in s && s[k] == store[k]
  {
  }
}
