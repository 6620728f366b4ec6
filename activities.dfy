/** What each agent may do, and the canned content the engine draws from:
    the per-role activity tables, the domain OKRs, and the bug, PR-title,
    meeting-comment and documentation texts of App.tsx. */
module Activities {
  import opened Base
  import opened Entities

  /** One entry of an activity table; the constructor is the source's `type`. */
  datatype Activity =
    | MessageActivity(content: string)
    | TaskActivity(title: string, description: string, priority: Priority, taskType: TaskType)
    | CompleteActivity
    | BugActivity
    | PrActivity
    | ReviewActivity
    | DecisionActivity(content: string)
    | DocumentationActivity(docType: DocType, title: string)
    | FinancialActivity(content: string)

  /** Which role may do what: only QA reviews and reports bugs, only the
      developer opens PRs, only the documentation lead publishes (always
      under a title), only the CFO posts financial notes, and no task
      template is a bug. */
  predicate MayDo(role: Role, a: Activity) {
    && (a.ReviewActivity? || a.BugActivity? ==> role == QaRole)
    && (a.PrActivity? ==> role == DeveloperRole)
    && (a.DocumentationActivity? ==> role == DocsRole && a.title != "")
    && (a.FinancialActivity? ==> role == CfoRole)
    && (a.TaskActivity? ==> a.taskType != BugTask)
  }

  /** Entry `i` of a role's activity table (App.tsx:683-740). */
  function RoleActivity(role: Role, i: nat): (a: Activity)
    requires i < 6
    ensures MayDo(role, a)
  {
    match role
    case CeoRole => CeoActivity(i)
    case DeveloperRole => DeveloperActivity(i)
    case DesignerRole => DesignerActivity(i)
    case MarketerRole => MarketerActivity(i)
    case QaRole => QaActivity(i)
    case DocsRole => DocsActivity(i)
    case CfoRole => CfoActivity(i)
  }

  function CeoActivity(i: nat): (a: Activity)
    ensures MayDo(CeoRole, a)
  {
    if i == 0 then MessageActivity("We need to prioritize user onboarding this week. Thoughts?")
    else if i == 1 then MessageActivity("Great progress team! Let's focus on the MVP features.")
    else if i == 2 then DecisionActivity("Approved the new feature roadmap. Let's execute!")
    else if i == 3 then TaskActivity("Define Q1 OKRs", "Set quarterly objectives and key results", High, PlanningTask)
    else if i == 4 then MessageActivity("Customer feedback is coming in positive! Keep it up.")
    else DecisionActivity("Let's pivot our pricing strategy based on user research.")
  }

  function DeveloperActivity(i: nat): (a: Activity)
    ensures MayDo(DeveloperRole, a)
  {
    if i == 0 then MessageActivity("Just deployed the new authentication system. Testing now.")
    else if i == 1 then MessageActivity("Working on the API optimization - should improve speed by 40%.")
    else if i == 2 then TaskActivity("Build user dashboard", "Create analytics dashboard for users", High, FeatureTask)
    else if i == 3 then CompleteActivity
    else if i == 4 then PrActivity
    else MessageActivity("Refactoring the payment service for better scalability.")
  }

  function DesignerActivity(i: nat): (a: Activity)
    ensures MayDo(DesignerRole, a)
  {
    if i == 0 then MessageActivity("New mockups are ready for the landing page redesign!")
    else if i == 1 then MessageActivity("User research shows we need better mobile navigation.")
    else if i == 2 then TaskActivity("Design onboarding flow", "Create user-friendly onboarding wireframes", Medium, DesignTask)
    else if i == 3 then MessageActivity("Updated the design system with new color palette.")
    else if i == 4 then CompleteActivity
    else MessageActivity("Created interactive prototypes for user testing.")
  }

  function MarketerActivity(i: nat): (a: Activity)
    ensures MayDo(MarketerRole, a)
  {
    if i == 0 then MessageActivity("Our social media engagement is up 35% this week!")
    else if i == 1 then MessageActivity("Planning a launch campaign for next month. Need input.")
    else if i == 2 then TaskActivity("Create launch content", "Prepare blog posts and social content", Medium, MarketingTask)
    else if i == 3 then MessageActivity("SEO improvements are showing results - organic traffic doubled!")
    else if i == 4 then MessageActivity("Reaching out to potential beta users for feedback.")
    else CompleteActivity
  }

  function QaActivity(i: nat): (a: Activity)
    ensures MayDo(QaRole, a)
  {
    if i == 0 then MessageActivity("Running automated test suite on latest build...")
    else if i == 1 then BugActivity
    else if i == 2 then MessageActivity("Test coverage is now at 87% and climbing!")
    else if i == 3 then ReviewActivity
    else if i == 4 then MessageActivity("Performance tests passed - load time under 2 seconds!")
    else CompleteActivity
  }

  function DocsActivity(i: nat): (a: Activity)
    ensures MayDo(DocsRole, a)
  {
    if i == 0 then DocumentationActivity(ApiDocs, "API Reference")
    else if i == 1 then DocumentationActivity(UserGuide, "User Guide")
    else if i == 2 then MessageActivity("Updated onboarding documentation based on user feedback.")
    else if i == 3 then TaskActivity("Create video tutorials", "Produce tutorial videos for new features", Medium, DocumentationTask)
    else if i == 4 then CompleteActivity
    else MessageActivity("Published technical architecture documentation for developers.")
  }

  function CfoActivity(i: nat): (a: Activity)
    ensures MayDo(CfoRole, a)
  {
    if i == 0 then FinancialActivity("Monthly financial review: Revenue up 23%, runway stable at 16 months.")
    else if i == 1 then MessageActivity("Analyzing pricing model optimization opportunities.")
    else if i == 2 then TaskActivity("Prepare investor deck", "Update financial projections for Series A", High, FinancialTask)
    else if i == 3 then FinancialActivity("CAC decreased by 18% through improved conversion funnel.")
    else if i == 4 then CompleteActivity
    else MessageActivity("Negotiated better terms with infrastructure provider - 25% cost savings.")
  }

  /** The activity table of one role. */
  function RoleActivities(role: Role): (r: seq<Activity>)
    ensures |r| == 6
    ensures forall i :: 0 <= i < 6 ==> r[i] == RoleActivity(role, i)
  {
    seq(6, i requires 0 <= i < 6 => RoleActivity(role, i))
  }

  /** `getAgentActivities(agent)` (App.tsx:682-743): six activities per roster
      role, none for any other id. */
  function GetAgentActivities(agentId: string): (r: seq<Activity>)
    ensures IsRosterId(agentId) <==> |r| == 6
    ensures !IsRosterId(agentId) <==> r == []
  {
    match RoleOf(agentId)
    case Some(role) => RoleActivities(role)
    case None => []
  }

  /** What an agent's table lets it do: only QA reviews and reports bugs,
      only the developer opens PRs, only the documentation lead publishes,
      only the CFO posts financial notes. */
  lemma ActivityPlacement(agentId: string, i: nat)
    requires i < |GetAgentActivities(agentId)|
    ensures var a := GetAgentActivities(agentId)[i];
      && (a.ReviewActivity? || a.BugActivity? ==> agentId == "qa")
      && (a.PrActivity? ==> agentId == "developer")
      && (a.DocumentationActivity? ==> agentId == "docs" && a.title != "")
      && (a.FinancialActivity? ==> agentId == "cfo")
  {
    assert MayDo(RoleOf(agentId).value, GetAgentActivities(agentId)[i]);
  }

  /** No task template is a bug: bug tasks come only from bug reports. */
  lemma TaskActivitiesAreNotBugs(agentId: string, i: nat)
    requires i < |GetAgentActivities(agentId)|
    requires GetAgentActivities(agentId)[i].TaskActivity?
    ensures GetAgentActivities(agentId)[i].taskType != BugTask
  {
    assert MayDo(RoleOf(agentId).value, GetAgentActivities(agentId)[i]);
  }

  /** The bug descriptions QA chooses from (App.tsx:806-812). */
  const BugCount: nat := 5

  function Bug(k: nat): string
    requires k < BugCount
  {
    if k == 0 then "Found a memory leak in the user session handler"
    else if k == 1 then "Login button not responsive on mobile Safari"
    else if k == 2 then "Payment confirmation email has wrong template"
    else if k == 3 then "Dashboard charts rendering incorrectly on Firefox"
    else "API returning 500 error on edge case inputs"
  }

  /** The PR titles the developer chooses from (App.tsx:832-838). */
  const PrTitleCount: nat := 5

  function PrTitle(k: nat): string
    requires k < PrTitleCount
  {
    if k == 0 then "Add user authentication flow"
    else if k == 1 then "Implement dark mode toggle"
    else if k == 2 then "Optimize database queries"
    else if k == 3 then "Add email notification system"
    else "Refactor component architecture"
  }

  /** The comments posted after a sprint meeting (App.tsx:582-590). */
  const MeetingCommentCount: nat := 7

  function MeetingComment(k: nat): string
    requires k < MeetingCommentCount
  {
    if k == 0 then "We're making great progress on the core features!"
    else if k == 1 then "I think we should focus more on testing this sprint."
    else if k == 2 then "Customer feedback has been positive, let's capitalize on that."
    else if k == 3 then "We need to address technical debt before it becomes a problem."
    else if k == 4 then "Marketing metrics are trending upward!"
    else if k == 5 then "Documentation is helping reduce support tickets."
    else "Our burn rate is healthy - we have good runway."
  }

  /** `docContents[docType]` (App.tsx:783-788); the text keeps the source's
      literal backslash-n pairs. */
  function DocContent(t: DocType): string {
    match t
    case ApiDocs =>
      "# API Documentation\\n" +
      "\\n" +
      "## Authentication\\n" +
      "All API requests require authentication using JWT tokens.\\n" +
      "\\n" +
      "## Endpoints\\n" +
      "- GET /api/users - List all users\\n" +
      "- POST /api/users - Create new user\\n" +
      "- GET /api/products - List products"
    case UserGuide =>
      "# User Guide\\n" +
      "\\n" +
      "Welcome to our platform! This guide will help you get started.\\n" +
      "\\n" +
      "## Getting Started\\n" +
      "1. Create an account\\n" +
      "2. Complete your profile\\n" +
      "3. Start using features\\n" +
      "\\n" +
      "## Tips & Tricks\\n" +
      "- Use keyboard shortcuts for faster navigation\\n" +
      "- Enable notifications for updates"
    case TechnicalDocs =>
      "# Technical Architecture\\n" +
      "\\n" +
      "## System Overview\\n" +
      "Our platform uses a microservices architecture with React frontend and Node.js backend.\\n" +
      "\\n" +
      "## Database Schema\\n" +
      "PostgreSQL for relational data, Redis for caching."
    case OnboardingDocs =>
      "# Onboarding Guide\\n" +
      "\\n" +
      "## Welcome!\\n" +
      "Thank you for joining us. Here's how to get started:\\n" +
      "\\n" +
      "1. Complete your profile\\n" +
      "2. Explore the dashboard\\n" +
      "3. Join your first project"
  }

  /** A domain's starting OKRs: two objectives of three key results each, at zero progress. */
  predicate FreshGoals(goals: seq<OKR>) {
    |goals| == 2 && forall i :: 0 <= i < |goals| ==> goals[i].progress == 0.0 && |goals[i].keyResults| == 3
  }

  /** The keys of the OKR table of `getOKRsForDomain` (App.tsx:421-506). */
  datatype Plan = SaasPlan | EcommercePlan | FintechPlan | HealthcarePlan | DefaultPlan

  const PlanKeys: map<string, Plan> := map[
    "saas" := SaasPlan,
    "ecommerce" := EcommercePlan,
    "fintech" := FintechPlan,
    "healthcare" := HealthcarePlan,
    "default" := DefaultPlan
  ]

  /** Objective `k` of a plan, as a fresh OKR owned by one role. */
  function Objective(p: Plan, k: nat): (r: OKR)
    requires k < 2
    ensures r.progress == 0.0 && |r.keyResults| == 3
    ensures r.id == (if k == 0 then "1" else "2")
  {
    match p
    case SaasPlan =>
      if k == 0 then OKR("1", "Launch SaaS MVP Successfully",
        ["Ship 10 core features", "Achieve 95% test coverage", "Onboard 100 beta users"], 0.0, "ceo")
      else OKR("2", "Build Strong Market Presence",
        ["Grow to 1K users", "Achieve $10K MRR", "Get 3 case studies"], 0.0, "marketer")
    case EcommercePlan =>
      if k == 0 then OKR("1", "Launch Online Store",
        ["List 100 products", "Process 500 orders", "Achieve 3% conversion rate"], 0.0, "ceo")
      else OKR("2", "Drive Traffic & Sales",
        ["Reach 10K monthly visitors", "Hit $50K GMV", "Build email list of 2K"], 0.0, "marketer")
    case FintechPlan =>
      if k == 0 then OKR("1", "Build Secure Platform",
        ["Pass security audit", "Achieve SOC 2 compliance", "Zero security incidents"], 0.0, "developer")
      else OKR("2", "Acquire Users",
        ["Onboard 1K users", "Process $1M transactions", "Achieve 40% retention"], 0.0, "ceo")
    case HealthcarePlan =>
      if k == 0 then OKR("1", "Ensure HIPAA Compliance",
        ["Complete security audit", "Train all staff", "Implement data encryption"], 0.0, "ceo")
      else OKR("2", "Build Provider Network",
        ["Onboard 50 providers", "Achieve 90% satisfaction", "1K patient visits"], 0.0, "ceo")
    case DefaultPlan =>
      if k == 0 then OKR("1", "Launch MVP Successfully",
        ["Ship 10 core features", "Achieve 95% test coverage", "Onboard 100 users"], 0.0, "ceo")
      else OKR("2", "Achieve Product-Market Fit",
        ["Reach 1K users", "Achieve $20K MRR", "60% user retention"], 0.0, "ceo")
  }

  /** A plan's two objectives. */
  function PlanOKRs(p: Plan): (r: seq<OKR>)
    ensures FreshGoals(r)
  {
    [Objective(p, 0), Objective(p, 1)]
  }

  /** `baseOKRs[domain] || baseOKRs.default`: an unknown domain gets the default plan. */
  function GetOKRsForDomain(domain: string): (r: seq<OKR>)
    ensures FreshGoals(r) && r[0].id == "1" && r[1].id == "2"
    ensures domain in PlanKeys ==> r == PlanOKRs(PlanKeys[domain])
    ensures domain !in PlanKeys ==> r == PlanOKRs(DefaultPlan)
  {
    if domain in PlanKeys then PlanOKRs(PlanKeys[domain]) else PlanOKRs(DefaultPlan)
  }
}
