/** The skill catalogue and its two queries (shared/skills.ts): case-insensitive search
    with at most ten results, and suggestions of at most twenty skills not yet chosen. */
module Skills {
  import opened Seqs
  import opened Text

  /** The catalogue, in the order in which it is offered. */
  const PredefinedSkills: seq<string> := [
    // Programming languages
    "JavaScript", "TypeScript", "Python", "Java", "C++", "C#", "Go", "Rust", "PHP", "Ruby", "Swift",
    "Kotlin", "Dart", "Scala", "R", "MATLAB", "SQL",
    // Frontend technologies
    "React", "Vue.js", "Angular", "Svelte", "Next.js", "Nuxt.js", "HTML", "CSS", "Sass", "Less",
    "Tailwind CSS", "Bootstrap", "Material-UI", "Chakra UI",
    // Backend technologies
    "Node.js", "Express.js", "Django", "Flask", "FastAPI", "Spring Boot", "ASP.NET", "Laravel",
    "Ruby on Rails", "GraphQL", "REST APIs", "Microservices",
    // Databases
    "MongoDB", "PostgreSQL", "MySQL", "SQLite", "Redis", "Elasticsearch", "Firebase", "Supabase",
    "DynamoDB", "Cassandra",
    // Cloud and DevOps
    "AWS", "Google Cloud", "Azure", "Docker", "Kubernetes", "Jenkins", "GitHub Actions", "GitLab CI",
    "Terraform", "Ansible", "Linux", "Nginx",
    // Mobile development
    "React Native", "Flutter", "iOS Development", "Android Development", "Xamarin", "Ionic", "Cordova",
    // Data science and AI
    "Machine Learning", "Deep Learning", "Data Analysis", "Data Visualization", "TensorFlow", "PyTorch",
    "Pandas", "NumPy", "Scikit-learn", "Jupyter", "Tableau", "Power BI",
    // Design
    "UI/UX Design", "Figma", "Adobe Photoshop", "Adobe Illustrator", "Sketch", "InVision", "Prototyping",
    "User Research", "Wireframing", "Design Systems",
    // Game development
    "Unity", "Unreal Engine", "Godot", "Game Design", "3D Modeling", "Blender", "Maya", "C# for Games", "Lua",
    // Web3 and blockchain
    "Blockchain", "Solidity", "Web3.js", "Ethereum", "Smart Contracts", "DeFi", "NFTs", "Cryptocurrency",
    // Testing
    "Unit Testing", "Integration Testing", "Jest", "Cypress", "Selenium", "Test-Driven Development",
    "Quality Assurance",
    // Project management
    "Agile", "Scrum", "Kanban", "Project Management", "Product Management", "Leadership", "Team Management",
    // Marketing and business
    "Digital Marketing", "SEO", "Content Marketing", "Social Media Marketing", "Email Marketing", "Analytics",
    "Business Strategy", "Sales",
    // Other technical skills
    "Git", "GitHub", "Version Control", "API Development", "Cybersecurity", "Network Administration",
    "System Administration", "Technical Writing"
  ]

  const SearchLimit: nat := 10
  const SuggestionLimit: nat := 20

  /** A query is blank when trimming leaves nothing. */
  predicate IsBlank(query: string) {
    Trim(query) == []
  }

  /** The query as it is compared: lower-cased, then trimmed. */
  function NormalizeQuery(query: string): string {
    Trim(ToLower(query))
  }

  /** The lower-cased skill contains the normalized query. */
  predicate MatchesQuery(skill: string, normalized: string) {
    Includes(ToLower(skill), normalized)
  }

  /** Every entry of `catalogue` that matches, in catalogue order. */
  function CatalogueMatches(catalogue: seq<string>, normalized: string): seq<string> {
    Filter((skill: string) => MatchesQuery(skill, normalized), catalogue)
  }

  /** `searchSkills` over a given catalogue: nothing for a blank query, otherwise the first
      ten entries that contain the normalized query. */
  function SearchIn(catalogue: seq<string>, query: string): (r: seq<string>)
    ensures IsBlank(query) ==> r == []
    ensures |r| <= SearchLimit
    ensures !IsBlank(query) ==> r <= CatalogueMatches(catalogue, NormalizeQuery(query))
    ensures var matches := CatalogueMatches(catalogue, NormalizeQuery(query));
            !IsBlank(query) ==> |r| == if |matches| <= SearchLimit then |matches| else SearchLimit
  {
    if IsBlank(query) then [] else Take(CatalogueMatches(catalogue, NormalizeQuery(query)), SearchLimit)
  }

  /** Every result is a catalogue entry containing the normalized query. */
  lemma SearchSound(catalogue: seq<string>, query: string, skill: string)
    requires skill in SearchIn(catalogue, query)
    ensures skill in catalogue && MatchesQuery(skill, NormalizeQuery(query))
  {
    assert skill in CatalogueMatches(catalogue, NormalizeQuery(query));
  }

  /** The results keep the catalogue order. */
  lemma SearchKeepsOrder(catalogue: seq<string>, query: string)
    ensures IsSubsequence(SearchIn(catalogue, query), catalogue)
  {
    if !IsBlank(query) {
      TakeSubsequence(CatalogueMatches(catalogue, NormalizeQuery(query)), catalogue, SearchLimit);
    }
  }

  /** `searchSkills`: the search over the predefined catalogue. */
  function SearchSkills(query: string): seq<string> {
    SearchIn(PredefinedSkills, query)
  }

  /** A search that returns fewer than ten results has returned every matching entry. */
  lemma SearchComplete(catalogue: seq<string>, query: string, skill: string)
    requires !IsBlank(query)
    requires skill in catalogue && MatchesQuery(skill, NormalizeQuery(query))
    requires |SearchIn(catalogue, query)| < SearchLimit
    ensures skill in SearchIn(catalogue, query)
  {
    var all := CatalogueMatches(catalogue, NormalizeQuery(query));
    assert |Take(all, SearchLimit)| < SearchLimit;
    assert Take(all, SearchLimit) == all;
  }

  /** A query is blank exactly when its normalized form is empty. */
  lemma BlankIffNormalizedEmpty(query: string)
    ensures IsBlank(query) <==> NormalizeQuery(query) == []
  {
    TrimToLower(query);
  }

  /** The search ignores letter case and surrounding whitespace: queries that normalize to
      the same string give the same results. */
  lemma SearchIgnoresCaseAndSpace(catalogue: seq<string>, q1: string, q2: string)
    requires NormalizeQuery(q1) == NormalizeQuery(q2)
    ensures SearchIn(catalogue, q1) == SearchIn(catalogue, q2)
  {
    BlankIffNormalizedEmpty(q1);
    BlankIffNormalizedEmpty(q2);
  }

  /** `getSkillSuggestions` over a given catalogue: the first twenty entries not in
      `currentSkills`. */
  function SuggestionsIn(catalogue: seq<string>, currentSkills: seq<string>): (r: seq<string>)
    ensures |r| <= SuggestionLimit
    ensures forall skill :: skill in r ==> skill in catalogue && skill !in currentSkills
    ensures IsSubsequence(r, catalogue)
    ensures r <= Filter((skill: string) => skill !in currentSkills, catalogue)
    ensures var unchosen := Filter((skill: string) => skill !in currentSkills, catalogue);
            |r| == if |unchosen| <= SuggestionLimit then |unchosen| else SuggestionLimit
  {
    var all := Filter((skill: string) => skill !in currentSkills, catalogue);
    TakeSubsequence(all, catalogue, SuggestionLimit);
    assert forall skill :: skill in Take(all, SuggestionLimit) ==> skill in all;
    Take(all, SuggestionLimit)
  }

  /** `getSkillSuggestions`. */
  function GetSkillSuggestions(currentSkills: seq<string>): seq<string> {
    SuggestionsIn(PredefinedSkills, currentSkills)
  }

  /** Fewer than twenty suggestions means every entry not yet chosen is suggested. */
  lemma SuggestionsComplete(catalogue: seq<string>, currentSkills: seq<string>, skill: string)
    requires skill in catalogue && skill !in currentSkills
    requires |SuggestionsIn(catalogue, currentSkills)| < SuggestionLimit
    ensures skill in SuggestionsIn(catalogue, currentSkills)
  {
    var all := Filter((s: string) => s !in currentSkills, catalogue);
    assert |Take(all, SuggestionLimit)| < SuggestionLimit;
    assert Take(all, SuggestionLimit) == all;
  }
}
