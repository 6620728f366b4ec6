/** The domain catalogs of the simulator: per-domain templates, the random
    event announcements with their 10% trigger, and the metric labels with
    their SaaS fallback. The three tables of domainKnowledge.ts are keyed by
    the same ten industry names; here each name maps to an `Industry` and
    each table is a function of it, so no table lacks an entry for a name. */
module DomainKnowledge {
  import opened Base

  datatype Template = Template(name: string, focus: string, challenges: seq<string>)

  /** The industries the project setup form offers. */
  const SetupDomains: set<string> :=
    {"saas", "ecommerce", "fintech", "healthcare", "edtech", "marketplace", "social", "ai", "gaming", "crypto"}

  datatype Industry = Saas | Ecommerce | Fintech | Healthcare | Edtech | Marketplace | Social | Ai | Gaming | Crypto

  /** The key under which each industry appears in the tables. */
  const Industries: map<string, Industry> := map[
    "saas" := Saas,
    "ecommerce" := Ecommerce,
    "fintech" := Fintech,
    "healthcare" := Healthcare,
    "edtech" := Edtech,
    "marketplace" := Marketplace,
    "social" := Social,
    "ai" := Ai,
    "gaming" := Gaming,
    "crypto" := Crypto
  ]

  /** The tables are keyed by exactly the domains the setup form offers. */
  lemma DomainsCovered()
    ensures Industries.Keys == SetupDomains
  {
  }

  /** `domainTemplates` (domainKnowledge.ts:15-66): display name, focus and challenges. */
  function DomainTemplate(d: Industry): Template {
    match d
    case Saas => Template("SaaS Platform", "Recurring revenue, user retention, feature velocity",
        ["Churn rate", "Product-market fit", "CAC:LTV ratio", "Technical debt"])
    case Ecommerce => Template("E-commerce", "Conversion rate, GMV, customer lifetime value",
        ["Cart abandonment", "Inventory management", "Shipping logistics", "Returns"])
    case Fintech => Template("FinTech", "Security, compliance, transaction volume",
        ["Regulatory compliance", "Fraud prevention", "Banking partnerships", "Trust"])
    case Healthcare => Template("HealthTech", "Patient outcomes, HIPAA compliance, provider network",
        ["Data privacy", "Medical accuracy", "Insurance integration", "Regulations"])
    case Edtech => Template("EdTech", "Learning outcomes, engagement, content quality",
        ["Course completion", "Accreditation", "Teacher quality", "Pricing"])
    case Marketplace => Template("Marketplace", "Supply-demand balance, GMV, take rate",
        ["Network effects", "Trust & safety", "Payment escrow", "Quality control"])
    case Social => Template("Social Network", "User engagement, DAU/MAU, viral growth",
        ["Content moderation", "Retention", "Monetization", "Privacy"])
    case Ai => Template("AI/ML Platform", "Model accuracy, inference speed, API reliability",
        ["Training costs", "Data quality", "Bias mitigation", "Explainability"])
    case Gaming => Template("Gaming", "Player retention, ARPU, viral coefficient",
        ["Live ops", "Monetization balance", "Server costs", "Community toxicity"])
    case Crypto => Template("Web3/Crypto", "TVL, community, tokenomics",
        ["Security audits", "Regulations", "Gas fees", "Market volatility"])
  }

  /** How many announcements each table of `domainRandomEvents` holds. */
  const EventsPerDomain: nat := 7

  /** Entry `k` of the domain's table in `domainRandomEvents` (domainKnowledge.ts:69-160). */
  function DomainEvent(d: Industry, k: nat): string
    requires k < EventsPerDomain
  {
    match d
    case Saas => SaasEvent(k)
    case Ecommerce => EcommerceEvent(k)
    case Fintech => FintechEvent(k)
    case Healthcare => HealthcareEvent(k)
    case Edtech => EdtechEvent(k)
    case Marketplace => MarketplaceEvent(k)
    case Social => SocialEvent(k)
    case Ai => AiEvent(k)
    case Gaming => GamingEvent(k)
    case Crypto => CryptoEvent(k)
  }

  function SaasEvent(k: nat): string {
    if k == 0 then "🎉 Major enterprise client signed! $50K ARR contract"
    else if k == 1 then "⚠️ Competitor launched similar feature - need to differentiate"
    else if k == 2 then "🐛 Critical bug affecting 5% of users - all hands on deck"
    else if k == 3 then "📈 Product Hunt launch went viral! 500 signups today"
    else if k == 4 then "💡 Customer feedback suggests major new feature opportunity"
    else if k == 5 then "🔒 Security audit completed - need to fix 3 vulnerabilities"
    else "🤝 Partnership opportunity with major platform"
  }

  function EcommerceEvent(k: nat): string {
    if k == 0 then "📦 Supply chain delay affecting 20% of inventory"
    else if k == 1 then "🎁 Holiday season spike - 3x normal traffic expected"
    else if k == 2 then "⭐ Influencer partnership driving huge traffic"
    else if k == 3 then "💳 Payment processor went down for 2 hours"
    else if k == 4 then "🚚 Shipping carrier increased rates by 15%"
    else if k == 5 then "🔥 Flash sale generated 200% of daily revenue"
    else "📸 User-generated content campaign went viral"
  }

  function FintechEvent(k: nat): string {
    if k == 0 then "🏦 Banking partner changed API - urgent integration needed"
    else if k == 1 then "⚖️ New regulation announced - compliance review required"
    else if k == 2 then "🔐 Security audit passed with flying colors"
    else if k == 3 then "💰 Funding round closed - $5M raised"
    else if k == 4 then "🚨 Fraud detection caught major attempted breach"
    else if k == 5 then "📊 Transaction volume doubled month-over-month"
    else "🤝 Major card network approved partnership"
  }

  function HealthcareEvent(k: nat): string {
    if k == 0 then "🏥 New provider network partnership signed"
    else if k == 1 then "⚕️ FDA approval process initiated"
    else if k == 2 then "🔒 HIPAA audit completed successfully"
    else if k == 3 then "📱 Telemedicine demand surge - need to scale"
    else if k == 4 then "💊 Integration with major pharmacy chain"
    else if k == 5 then "📋 Insurance reimbursement approved"
    else "🧪 Clinical validation study shows positive results"
  }

  function EdtechEvent(k: nat): string {
    if k == 0 then "🎓 University partnership announced"
    else if k == 1 then "📚 Course completion rate improved to 75%"
    else if k == 2 then "👨‍🏫 Top instructor recruited from competitor"
    else if k == 3 then "🏆 Won \"Best EdTech Platform\" award"
    else if k == 4 then "💻 Live class feature driving 40% more engagement"
    else if k == 5 then "📝 Accreditation received for certificate programs"
    else "🌍 International expansion - launching in 3 new countries"
  }

  function MarketplaceEvent(k: nat): string {
    if k == 0 then "🚀 Crossed critical mass - network effects kicking in"
    else if k == 1 then "⚠️ Fraud attempt detected and prevented"
    else if k == 2 then "💵 Average transaction value increased 30%"
    else if k == 3 then "🤝 Major supplier joined platform"
    else if k == 4 then "⭐ Trust score system improved quality by 25%"
    else if k == 5 then "📈 Supply outpacing demand - need more buyers"
    else "🔧 Payment escrow system upgrade complete"
  }

  function SocialEvent(k: nat): string {
    if k == 0 then "📱 Viral feature spreading organically"
    else if k == 1 then "⚠️ Content moderation challenge - reviewing policies"
    else if k == 2 then "🎯 Engagement rate highest in company history"
    else if k == 3 then "💬 Influencers creating buzz around platform"
    else if k == 4 then "🔒 Privacy settings enhanced after user feedback"
    else if k == 5 then "📊 DAU/MAU ratio reached 50%"
    else "🌟 Celebrity joined and brought 100K followers"
  }

  function AiEvent(k: nat): string {
    if k == 0 then "🤖 Model accuracy improved to 95%"
    else if k == 1 then "⚡ Inference latency reduced by 60%"
    else if k == 2 then "📊 Training costs optimized - 40% savings"
    else if k == 3 then "🔬 Research paper published about our approach"
    else if k == 4 then "⚠️ Bias detected in model - retraining needed"
    else if k == 5 then "🚀 New model version deployed to production"
    else "🏆 Outperformed competitors in benchmark"
  }

  function GamingEvent(k: nat): string {
    if k == 0 then "🎮 Player retention improved to 40% D7"
    else if k == 1 then "🎨 New cosmetic items generated $50K in 24 hours"
    else if k == 2 then "⚔️ Tournament attracted 10K participants"
    else if k == 3 then "🐛 Major exploit discovered - hotfix deployed"
    else if k == 4 then "🌟 Streamer with 1M followers playing our game"
    else if k == 5 then "💰 ARPU increased 25% after monetization update"
    else "🌍 Launched in Asia - huge player surge"
  }

  function CryptoEvent(k: nat): string {
    if k == 0 then "💎 TVL crossed $10M milestone"
    else if k == 1 then "🔒 Smart contract audit completed - no critical issues"
    else if k == 2 then "📈 Token price increased 50% this week"
    else if k == 3 then "⚠️ Gas fees spiking - users complaining"
    else if k == 4 then "🤝 Major DeFi protocol integration complete"
    else if k == 5 then "🔐 Security incident prevented - multisig working"
    else "🏛️ DAO governance proposal passed"
  }

  /** A domain's whole table of announcements. */
  function DomainEvents(d: Industry): (r: seq<string>)
    ensures |r| == EventsPerDomain
  {
    seq(EventsPerDomain, k requires 0 <= k < EventsPerDomain => DomainEvent(d, k))
  }

  /** `getRandomEvent(domain)`: `trigger` and `pick` are its two draws of
      Math.random(). No table, or a trigger above 0.1, means no event. */
  function GetRandomEvent(domain: string, trigger: Unit, pick: Unit): (r: Option<string>)
    ensures r.Some? <==> domain in Industries && trigger <= 0.1
    ensures r.Some? ==> r.value in DomainEvents(Industries[domain])
  {
    if domain !in Industries || trigger > 0.1 then None
    else Some(DomainEvents(Industries[domain])[Pick(pick, EventsPerDomain)])
  }

  /** The label table of `getDomainMetrics` (domainKnowledge.ts:211-262). */
  function MetricsLabels(d: Industry): (r: map<string, string>)
    ensures {"users", "revenue", "features"} <= r.Keys
  {
    match d
    case Saas => map["users" := "Active Users", "revenue" := "MRR", "features" := "Features Shipped"]
    case Ecommerce => map["users" := "Customers", "revenue" := "GMV", "features" := "Products Listed"]
    case Fintech => map["users" := "Account Holders", "revenue" := "Transaction Volume", "features" := "Integrations"]
    case Healthcare => map["users" := "Patients", "revenue" := "Monthly Revenue", "features" := "Services Offered"]
    case Edtech => map["users" := "Students", "revenue" := "Course Revenue", "features" := "Courses Published"]
    case Marketplace => map["users" := "Active Users", "revenue" := "GMV", "features" := "Listings"]
    case Social => map["users" := "DAU", "revenue" := "Ad Revenue", "features" := "Features Launched"]
    case Ai => map["users" := "API Users", "revenue" := "API Revenue", "features" := "Model Versions"]
    case Gaming => map["users" := "Daily Players", "revenue" := "Daily Revenue", "features" := "Game Modes"]
    case Crypto => map["users" := "Wallet Addresses", "revenue" := "TVL", "features" := "Smart Contracts"]
  }

  /** `getDomainMetrics(domain)`: the domain's labels, or SaaS's for an unknown domain. */
  function GetDomainMetrics(domain: string): (r: map<string, string>)
    ensures {"users", "revenue", "features"} <= r.Keys
    ensures domain !in Industries ==> r == MetricsLabels(Saas) && r["revenue"] == "MRR"
  {
    if domain in Industries then MetricsLabels(Industries[domain]) else MetricsLabels(Saas)
  }

  /** An unknown domain gets exactly the SaaS labels. */
  lemma GetDomainMetricsFallback(domain: string)
    requires domain !in SetupDomains
    ensures GetDomainMetrics(domain) == GetDomainMetrics("saas")
  {
    DomainsCovered();
  }
}
