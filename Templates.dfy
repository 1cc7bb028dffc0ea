/** The template catalog of frontend/src/components/Templates.tsx: six
    constant entries, each seeding ten form fields, and the pure
    category-to-style mappings used to display them. */
module Templates {
  import opened PrdTypes
  import opened Text
  import GeneratorState

  const NewFeatureTemplate := PrdTemplate(
    "new-feature",
    "New Feature PRD",
    "Define and deliver a new capability that drives measurable user value.",
    "new-feature",
    Seed(
      "Users currently face friction in accomplishing [core task], resulting in \n      reduced engagement and a decline in overall satisfaction. Current solutions are fragmented, forcing users to rely on external tools or manual steps that slow down productivity.",
      "Primary: Active users who frequently engage with [core product area] and seek a faster, more intuitive experience.\nSecondary: New users evaluating the platform for\n       its ease of use, discoverability, and efficiency in achieving outcomes.",
      "Users struggle with manual, repetitive steps that increase cognitive load. Lack of streamlined workflows leads to frustration, decreased productivity, and eventual churn.",
      "Usage analytics highlight a consistent drop-off at the [specific step or stage] of the workflow. Feedback from user interviews and surveys \n      indicates that the absence of [specific capability] is a recurring theme affecting engagement and retention.",
      "User launches the platform \U{2192} navigates to [specific module] \U{2192} initiates [task or action] \U{2192} \n      encounters friction or confusion due to missing or unclear functionality \U{2192} abandons task or exits session.",
      "Develop and introduce a new feature module that automates key repetitive tasks, improves clarity in navigation, and enhances task completion rates. The experience should feel natural, \n      integrated, and outcome-focused \U{2014} reducing the time to value for users.",
      "Core components include a unified workspace with guided interactions, contextual help, and progress feedback.\n       The feature will seamlessly connect to existing modules and maintain UI/UX consistency.",
      "Implementation through the MERN stack leveraging modular architecture for scalability. Requires integration with existing authentication, analytics, \n      and data storage services to maintain user continuity and real-time insights.",
      "\U{2191} Retention (x%), \U{2193} Task completion time (\U{2212}y%), \U{2191} NPS (z).",
      "Next phase: Add personalization and AI-driven recommendations."))

  const EnhancementTemplate := PrdTemplate(
    "enhancement",
    "Feature Enhancement PRD",
    "Refine and optimize an existing feature to improve usability, performance, and user satisfaction.",
    "enhancement",
    Seed(
      "The current [feature] exhibits usability and performance gaps that limit its effectiveness. Users encounter friction while completing routine actions, resulting in reduced adoption and inconsistent engagement across sessions.",
      "Primary: Existing customers who use [feature] as part of their daily workflow and depend on it for task completion.\nSecondary: Occasional users who engage intermittently but expect reliability and responsiveness when needed.",
      "Users report frequent lags during interaction, unclear navigation patterns, and unpredictable outcomes that create distrust in the system. This impacts both efficiency and user confidence.",
      "User feedback, heatmaps, and analytics indicate low engagement in critical sections of the UI. Performance tracing reveals that backend response times and client-side rendering inefficiencies contribute to slower load experiences and feature abandonment.",
      "User accesses [module] \U{2192} initiates [task/action] \U{2192} experiences delays or confusion at [specific step] \U{2192} drops or retries multiple times before completion.",
      "Redesign and optimize the existing feature by introducing a cleaner layout, clearer navigation cues, and backend caching improvements. The goal is to make the feature more intuitive, faster, and consistent without altering its core functionality.",
      "Enhancements include an improved layout hierarchy, optimized API calls for faster data retrieval, and accessibility improvements for inclusive usage. The update should preserve familiar patterns while elevating overall user satisfaction.",
      "Requires focused front-end refactoring in React for rendering optimization and lightweight backend updates for data caching. Deployment considered low-risk as changes are isolated and backward-compatible.",
      "Target outcomes: reduced page load time (x seconds), improved retention (y%), and decrease in user-reported support tickets (z%).",
      "Future iterations may introduce intelligent suggestions, predictive task flows, and analytics dashboards to continuously enhance user experience."))

  const BugFixTemplate := PrdTemplate(
    "bug-fix",
    "Bug Fix PRD",
    "Address and resolve a high-priority production issue impacting stability, data integrity, and user trust.",
    "bug-fix",
    Seed(
      "A critical defect in [module] is leading to inconsistent data handling and frequent user disruptions. This issue directly impacts live sessions, resulting in broken workflows and loss of confidence among active users.",
      "Primary: Active users operating on version [X.Y.Z] who depend on uninterrupted workflows for daily operations.\nSecondary: Support and QA teams monitoring system health and user complaints.",
      "Users are experiencing incorrect data synchronization, misleading error prompts, and intermittent crashes during high-load operations. These issues degrade reliability and delay key user actions.",
      "System monitoring and log reports indicate a significant spike in API call failures between [service A] and [service B], affecting roughly x% of active sessions. Root cause analysis points to improper exception handling and synchronization gaps across dependent modules.",
      "User triggers [specific action] \U{2192} API request fails mid-operation \U{2192} transaction rollback incomplete \U{2192} inconsistent data stored \U{2192} user receives unclear error feedback.",
      "Implement a structured patch focusing on synchronization logic, enhanced input validation, and reliable retry mechanisms. Additionally, introduce robust error handling to prevent data corruption and improve traceability for debugging.",
      "Key improvements include optimized API response validation, enhanced logging middleware for better observability, and a comprehensive regression testing suite to verify stability before deployment.",
      "Patch implementation limited to the microservice communication layer and associated APIs. Requires end-to-end testing in staging before production rollout to ensure compatibility and performance integrity.",
      "Expected outcomes include reduced API failure rate (x%), improved crash-free session rate (y%), and lower user-reported issue count (z%).",
      "Future iterations aim to automate anomaly detection, integrate rollback safety nets, and implement real-time error alerting to proactively address similar issues."))

  const MvpTemplate := PrdTemplate(
    "mvp",
    "MVP (Minimum Viable Product) PRD",
    "Define, develop, and launch the first minimal product version to validate market potential and user demand.",
    "mvp",
    Seed(
      "There is an unmet need in the [idea/problem space], where users lack an efficient and accessible solution to streamline their core tasks. The MVP aims to validate the product-market fit by addressing a focused problem with measurable impact.",
      "Primary: Early adopters in [industry/segment], primarily small teams or startups seeking simple, efficient tools.\nSecondary: Founders and innovators exploring lightweight alternatives to complex enterprise systems.",
      "Current solutions are overly complex or expensive. Users face high manual effort, fragmented workflows, and limited customization options that slow adoption and productivity.",
      "Market research and competitive analysis highlight a significant gap for an intuitive, no-frills tool offering essential capabilities with minimal setup. Early interviews confirm user interest in a lean, outcome-driven product that delivers quick value.",
      "User discovers product \U{2192} signs up using basic credentials \U{2192} completes initial setup \U{2192} performs the key workflow \U{2192} achieves a tangible result within x minutes of onboarding.",
      "Develop a focused MVP that includes only the essential components required for early validation. Emphasize ease of use, speed, and reliability to deliver immediate user value while collecting behavioral insights.",
      "Core components include user authentication for secure access, a streamlined workflow addressing the core task, and a lightweight feedback mechanism to gather early insights for iteration.",
      "To be implemented using the MERN stack for rapid prototyping and scalability. Estimated development window: x weeks, handled by a small cross-functional team to accelerate delivery and feedback loops.",
      "Success measured by early adoption (x active users), repeat engagement rate (y%), and qualitative feedback indicating product-market fit (z%).",
      "Subsequent releases will expand functionality with analytics dashboards, advanced customization, and integrations with third-party platforms based on validated user feedback."))

  const IntegrationTemplate := PrdTemplate(
    "integration",
    "Integration PRD",
    "Design and implement seamless data exchange between existing platforms to eliminate manual workflows and improve operational efficiency.",
    "integration",
    Seed(
      "Current processes require teams to manually transfer data between [Tool A] and [Tool B], leading to inefficiencies, data mismatches, and operational delays. The absence of integration slows collaboration and increases the risk of human error.",
      "Primary: Operations teams responsible for maintaining system consistency and data integrity.\nSecondary: Analytics teams relying on unified data for reporting and performance tracking.",
      "Redundant data entry, frequent synchronization issues, and manual corrections consume time and reduce productivity. Lack of real-time updates results in inconsistent insights across systems.",
      "Internal reports and user interviews indicate that teams lose approximately x hours weekly resolving sync-related issues. Streamlined integration can recover this time and significantly improve workflow accuracy and speed.",
      "User initiates or updates data in [Tool A] \U{2192} integration automatically syncs relevant records to [Tool B] \U{2192} confirmation logged and displayed via dashboard.",
      "Develop a robust bi-directional integration that enables automated, real-time data synchronization between both platforms. Include flexible sync configurations and transparent error reporting for better control and reliability.",
      "Secure OAuth2 authentication for trusted access, automated synchronization scheduler to manage frequency and load, and a centralized monitoring dashboard for viewing sync history and resolving errors.",
      "Implementation through RESTful APIs from both platforms, adhering to authentication and rate limit policies (up to x API calls/hour). Includes logging, validation, and rollback capabilities to ensure data consistency.",
      "Data synchronization success rate above x%, reduction of manual work by y hours per user weekly, and measurable decrease in data discrepancy incidents (\U{2212}z%).",
      "Introduce webhook-based real-time triggers for instant updates, expand integration to additional tools, and add analytics for tracking sync performance and system health."))

  const PlatformRedesignTemplate := PrdTemplate(
    "platform-redesign",
    "Platform Redesign PRD",
    "Revamp the product\U{2019}s visual identity and user experience to align with modern design standards, enhance usability, and strengthen brand perception.",
    "redesign",
    Seed(
      "The current platform suffers from an outdated interface, inconsistent design elements, and fragmented user flows. These issues reduce user trust, increase churn, and limit adoption among new users evaluating the product.",
      "Primary: Long-term users seeking a modern, intuitive interface that improves daily usability.\nSecondary: New users forming first impressions during onboarding and evaluation phases.",
      "Users face cluttered layouts, inconsistent UI components, and lack of visual clarity, leading to higher cognitive load and poor task efficiency.",
      "Recent UX audits and user feedback indicate a usability score of x/100 \U{2014} below industry standards. The redesign aims to address navigation inefficiencies, improve readability, and create a cohesive design language that scales with future features.",
      "User signs up \U{2192} explores dashboard \U{2192} experiences unclear navigation hierarchy \U{2192} struggles to locate key functionalities.",
      "Reimagine the entire platform using a modular, responsive, and accessibility-first design system. Establish a unified visual framework that enhances brand consistency and improves user interaction quality across all devices.",
      "Comprehensive design system for reusability, flexible grid-based responsive layouts, and streamlined onboarding flow that guides users intuitively through core features.",
      "Front-end rebuild using React and Tailwind CSS for faster iteration and component reusability. Minimal backend dependency ensures low implementation risk and phased rollout capability.",
      "Increase engagement by x%, reduce churn by y%, and elevate overall NPS by z points through improved satisfaction and perceived product quality.",
      "Add dark mode support, introduce micro-interactions for richer feedback, and integrate adaptive layouts that personalize user experiences based on behavior."))

  /** The catalog, in display order. */
  function Catalog(): (templates: seq<PrdTemplate>)
    ensures |templates| == 6
  {
    [NewFeatureTemplate, EnhancementTemplate, BugFixTemplate, MvpTemplate, IntegrationTemplate,
     PlatformRedesignTemplate]
  }

  /** The closed set of catalog categories. */
  predicate IsCategory(category: string)
  {
    category in {"new-feature", "enhancement", "bug-fix", "mvp", "integration", "redesign"}
  }

  /** The ids are pairwise distinct (they key the rendered list), every
      category is one of the closed set, and every category of the set is
      used by exactly one entry. */
  lemma CatalogIdsAndCategories()
    ensures forall i, j :: 0 <= i < j < |Catalog()| ==> Catalog()[i].id != Catalog()[j].id
    ensures forall i :: 0 <= i < |Catalog()| ==> IsCategory(Catalog()[i].category)
    ensures forall i, j :: 0 <= i < j < |Catalog()| ==> Catalog()[i].category != Catalog()[j].category
    ensures forall c :: IsCategory(c) ==> exists i :: 0 <= i < |Catalog()| && Catalog()[i].category == c
  {
    var t := Catalog();
    assert t[0].category == "new-feature" && t[1].category == "enhancement" && t[2].category == "bug-fix";
    assert t[3].category == "mvp" && t[4].category == "integration" && t[5].category == "redesign";
  }

  /** The ten form keys a template's seed supplies. */
  const SeedKeys: set<string> :=
    {"problemStatement", "userPersonas", "painPoints", "overview", "userFlow", "solution", "features",
     "technicalFeasibility", "keyMetrics", "futureScope"}

  /** A seed as form entries, keyed by field name. */
  function SeedFields(seed: Seed): (fields: map<string, string>)
    ensures fields.Keys == SeedKeys
  {
    map[
      "problemStatement" := seed.problemStatement,
      "userPersonas" := seed.userPersonas,
      "painPoints" := seed.painPoints,
      "overview" := seed.overview,
      "userFlow" := seed.userFlow,
      "solution" := seed.solution,
      "features" := seed.features,
      "technicalFeasibility" := seed.technicalFeasibility,
      "keyMetrics" := seed.keyMetrics,
      "futureScope" := seed.futureScope]
  }

  /** A seed supplies form keys only, and every form key except the
      audience, the goals and the constraints; so of the five fields the
      assembler reads, a seed fills only the problem statement and the
      features. */
  lemma SeedCoversForm(seed: Seed)
    ensures SeedFields(seed).Keys <= GeneratorState.FormKeys
    ensures GeneratorState.FormKeys - SeedFields(seed).Keys == {"targetAudience", "goals", "constraints"}
    ensures GeneratorState.AssembledKeys * SeedFields(seed).Keys == {"problemStatement", "features"}
  {
  }

  /** Every catalog entry supplies non-empty text for all ten seed fields. */
  lemma CatalogSeedsFilled()
    ensures forall i, k :: 0 <= i < |Catalog()| && k in SeedFields(Catalog()[i].template) ==>
              SeedFields(Catalog()[i].template)[k] != ""
  {
  }

  /** The icon glyphs of the catalog. */
  datatype Glyph = Sparkles | FileText | Bug | Rocket

  /** An icon: its glyph and its colour class. */
  datatype Icon = Icon(glyph: Glyph, tint: string)

  /** `getIcon`: the four named categories have their own icon and every
      other category gets the default. Only those four are told apart: the
      glyph identifies new-feature, bug-fix and mvp, the orange tint
      identifies enhancement, and all other categories share the default. */
  function GetIcon(category: string): (icon: Icon)
    ensures icon.glyph == Sparkles <==> category == "new-feature"
    ensures icon.glyph == Bug <==> category == "bug-fix"
    ensures icon.glyph == Rocket <==> category == "mvp"
    ensures icon.tint == "text-orange-600" <==> category == "enhancement"
    ensures icon == Icon(FileText, "text-primary-600") <==> category !in {"new-feature", "enhancement", "bug-fix", "mvp"}
  {
    match category
    case "new-feature" => Icon(Sparkles, "text-olive-700")
    case "enhancement" => Icon(FileText, "text-orange-600")
    case "bug-fix" => Icon(Bug, "text-primary-600")
    case "mvp" => Icon(Rocket, "text-olive-600")
    case _ => Icon(FileText, "text-primary-600")
  }

  const OliveBorder := "border-olive-200 hover:border-olive-300"
  const OrangeBorder := "border-orange-200 hover:border-orange-300"
  const PrimaryBorder := "border-primary-200 hover:border-primary-300"

  /** `getBorderColor`: new-feature and mvp share the olive border,
      enhancement alone has the orange one, and bug-fix shares the default
      border with every other category, integration and redesign among
      them. */
  function GetBorderColor(category: string): (border: string)
    ensures border == OliveBorder <==> category in {"new-feature", "mvp"}
    ensures border == OrangeBorder <==> category == "enhancement"
    ensures border == PrimaryBorder <==> category !in {"new-feature", "mvp", "enhancement"}
  {
    match category
    case "new-feature" => OliveBorder
    case "enhancement" => OrangeBorder
    case "bug-fix" => PrimaryBorder
    case "mvp" => OliveBorder
    case _ => PrimaryBorder
  }

  /** The displayed category label: `category.replace('-', ' ')`, which
      replaces the first hyphen only. */
  function CategoryLabel(category: string): (shown: string)
    ensures |shown| == |category|
    ensures Count(shown, '-') == if '-' in category then Count(category, '-') - 1 else 0
  {
    ReplaceFirstCount(category, '-', ' ');
    ReplaceFirst(category, '-', ' ')
  }

  /** Every category of the closed set has at most one hyphen. */
  lemma CategoryHasAtMostOneHyphen(category: string)
    requires IsCategory(category)
    ensures Count(category, '-') <= 1
  {
    var counts := [Count("new-feature", '-'), Count("enhancement", '-'), Count("bug-fix", '-'),
                   Count("mvp", '-'), Count("integration", '-'), Count("redesign", '-')];
    assert counts == [1, 0, 1, 0, 0, 0];
  }

  /** So no displayed catalog label has a hyphen. */
  lemma CatalogLabelsHaveNoHyphen()
    ensures forall i :: 0 <= i < |Catalog()| ==> '-' !in CategoryLabel(Catalog()[i].category)
  {
    CatalogIdsAndCategories();
    forall i | 0 <= i < |Catalog()|
      ensures '-' !in CategoryLabel(Catalog()[i].category)
    {
      CategoryHasAtMostOneHyphen(Catalog()[i].category);
    }
  }
}
