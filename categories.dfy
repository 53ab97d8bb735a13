/** Provider categories and their display table (mcp/categories.py). */
module Categories {
  import opened Wrappers

  datatype ProviderCategory = Enterprise | DevTools | Data | Cloud | Web | Custom {
    /** The enum member's string value. */
    function Value(): string {
      match this
      case Enterprise => "enterprise"
      case DevTools => "dev_tools"
      case Data => "data"
      case Cloud => "cloud"
      case Web => "web"
      case Custom => "custom"
    }
  }

  const ALL_CATEGORIES: seq<ProviderCategory> := [Enterprise, DevTools, Data, Cloud, Web, Custom]

  datatype CategoryInfo = CategoryInfo(displayName: string, icon: string, description: string)

  /** `CATEGORY_INFO` */
  const CATEGORY_INFO: map<ProviderCategory, CategoryInfo> := map[
    Enterprise := CategoryInfo("Enterprise & Collaboration", "\U{1F3E2}",
                               "Connect to company SaaS tools (Jira, GitHub, Slack)"),
    DevTools := CategoryInfo("Development Tools", "\U{1F6E0}\U{FE0F}",
                             "AI coding assistants and code analysis"),
    Data := CategoryInfo("Data Sources", "\U{1F4BE}", "Database and data store access"),
    Cloud := CategoryInfo("Cloud Platforms", "\U{2601}\U{FE0F}",
                          "Cloud resource management (AWS, Azure, GCP)"),
    Web := CategoryInfo("Web Services", "\U{1F310}", "Web scraping and search APIs"),
    Custom := CategoryInfo("Custom Providers", "\U{1F527}", "User-defined custom integrations")
  ]

  /** `ProviderCategory(s)`: the member whose value is `s`, if any. */
  function FromValue(s: string): (r: Option<ProviderCategory>)
    ensures r.Some? ==> r.value.Value() == s
    ensures r.None? ==> forall c: ProviderCategory :: c.Value() != s
  {
    if s == "enterprise" then Some(Enterprise)
    else if s == "dev_tools" then Some(DevTools)
    else if s == "data" then Some(Data)
    else if s == "cloud" then Some(Cloud)
    else if s == "web" then Some(Web)
    else if s == "custom" then Some(Custom)
    else None
  }

  /** The six values are distinct, so a value names exactly one category. */
  lemma ValuesDistinct(c: ProviderCategory, d: ProviderCategory)
    ensures c.Value() == d.Value() <==> c == d
    ensures FromValue(c.Value()) == Some(c)
  {
  }

  /** The table has an entry for every category, so the three getters never fail. */
  lemma InfoTotal(c: ProviderCategory)
    ensures c in CATEGORY_INFO
    ensures c in ALL_CATEGORIES
  {
  }

  function GetCategoryDisplayName(c: ProviderCategory): (r: string)
    ensures c in CATEGORY_INFO && r == CATEGORY_INFO[c].displayName
  {
    InfoTotal(c);
    CATEGORY_INFO[c].displayName
  }

  function GetCategoryIcon(c: ProviderCategory): (r: string)
    ensures c in CATEGORY_INFO && r == CATEGORY_INFO[c].icon
  {
    InfoTotal(c);
    CATEGORY_INFO[c].icon
  }

  function GetCategoryDescription(c: ProviderCategory): (r: string)
    ensures c in CATEGORY_INFO && r == CATEGORY_INFO[c].description
  {
    InfoTotal(c);
    CATEGORY_INFO[c].description
  }

  lemma EnterpriseEntry()
    ensures GetCategoryDisplayName(Enterprise) == "Enterprise & Collaboration"
    ensures GetCategoryIcon(Enterprise) == "\U{1F3E2}"
  {
  }
}
