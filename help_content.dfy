/**
 * The help centre's fixed content: the articles of each category, the
 * category titles, and the lookups and search over them. The markdown bodies
 * of the articles are files bundled with the application; their texts are a
 * parameter here.
 */
module HelpContent {
  import opened Common

  datatype Article = Article(id: string, title: string, description: string, icon: string, content: string, category: string)

  /** The seven bundled markdown documents, in the order of their file names. */
  datatype KnowledgeBase = KnowledgeBase(
    intro: string, trackerGuide: string, projectsTasks: string, organizations: string,
    reports: string, settings: string, faqs: string)

  function Introduction(kb: KnowledgeBase): Article {
    Article("introduccion", IntroductionTitle, IntroductionDescription, "🚀", kb.intro, "primeros-pasos")
  }

  const IntroductionTitle: string := "Visión General de Tempora"
  const IntroductionDescription: string :=
    "Qué es Tempora, su filosofía y cómo puede ayudarte a gestionar tu tiempo de forma efectiva."

  function TimerGuide(kb: KnowledgeBase): Article {
    Article("usar-timer", TimerGuideTitle, TimerGuideDescription, "⏱️", kb.trackerGuide, "tracking-tiempo")
  }

  const TimerGuideTitle: string := "Guía del Timer y Tracking"
  const TimerGuideDescription: string :=
    "Aprende a usar el cronómetro, atajos de teclado, entradas manuales y sincronización en tiempo real."

  function ProjectsTasks(kb: KnowledgeBase): Article {
    Article("proyectos-tareas", ProjectsTasksTitle, ProjectsTasksDescription, "📁", kb.projectsTasks, "gestion-proyectos")
  }

  const ProjectsTasksTitle: string := "Proyectos, Tareas y Clientes"
  const ProjectsTasksDescription: string :=
    "Organiza tu trabajo con proyectos, gestiona presupuestos y controla el alcance de tus entregas."

  function ReportsBilling(kb: KnowledgeBase): Article {
    Article("reportes-facturacion", ReportsBillingTitle, ReportsBillingDescription, "📊", kb.reports, "reportes-analisis")
  }

  const ReportsBillingTitle: string := "Reportes y Facturación"
  const ReportsBillingDescription: string :=
    "Genera reportes profesionales, exporta datos y crea facturas automáticas para tus clientes."

  function Faqs(kb: KnowledgeBase): Article {
    Article("faqs", FaqsTitle, FaqsDescription, "❓", kb.faqs, "solucion-problemas")
  }

  const FaqsTitle: string := "Preguntas Frecuentes"
  const FaqsDescription: string :=
    "Respuestas a las dudas más comunes y solución de problemas habituales."

  function OrganizationsTeams(kb: KnowledgeBase): Article {
    Article("organizaciones-equipo", OrganizationsTeamsTitle, OrganizationsTeamsDescription, "👥", kb.organizations, "administracion")
  }

  const OrganizationsTeamsTitle: string := "Organizaciones y Equipos"
  const OrganizationsTeamsDescription: string :=
    "Gestiona tu equipo, roles, permisos y configuración de workspaces multi-contexto."

  function SettingsSecurity(kb: KnowledgeBase): Article {
    Article("configuracion-seguridad", SettingsSecurityTitle, SettingsSecurityDescription, "🔒", kb.settings, "administracion")
  }

  const SettingsSecurityTitle: string := "Configuración y Seguridad"
  const SettingsSecurityDescription: string :=
    "Configura tu cuenta, privacidad, seguridad y personalización de la aplicación."

  /** `helpArticles`: each category key with its articles, in the object's key order. */
  function HelpArticles(kb: KnowledgeBase): seq<(string, seq<Article>)> {
    [ ("primeros-pasos", [Introduction(kb)])
    , ("tracking-tiempo", [TimerGuide(kb)])
    , ("gestion-proyectos", [ProjectsTasks(kb)])
    , ("reportes-analisis", [ReportsBilling(kb)])
    , ("solucion-problemas", [Faqs(kb)])
    , ("administracion", [OrganizationsTeams(kb), SettingsSecurity(kb)])
    ]
  }

  /** `categoryMetadata`: each category key with its title and description. */
  const CategoryMetadata: seq<(string, string, string)> := [
    ("primeros-pasos", "Primeros Pasos", "Configura tu cuenta, crea tu organización y empieza a trackear."),
    ("tracking-tiempo", "Tracking de Tiempo", "Aprende a usar el cronómetro, entradas manuales y atajos."),
    ("gestion-proyectos", "Gestión de Proyectos", "Organiza tu trabajo con proyectos, tareas y clientes."),
    ("reportes-analisis", "Reportes y Análisis", "Interpreta tus datos, exporta informes y visualiza tu productividad."),
    ("solucion-problemas", "Solución de Problemas", "Respuestas a preguntas frecuentes y errores comunes."),
    ("administracion", "Administración", "Gestiona tu equipo, facturación y configuración del espacio.")
  ]

  function ArticleKeys(table: seq<(string, seq<Article>)>): (r: seq<string>)
    ensures |r| == |table|
    ensures forall i :: 0 <= i < |table| ==> r[i] == table[i].0
  {
    seq(|table|, i requires 0 <= i < |table| => table[i].0)
  }

  function MetadataKeys(table: seq<(string, string, string)>): (r: seq<string>)
    ensures |r| == |table|
    ensures forall i :: 0 <= i < |table| ==> r[i] == table[i].0
  {
    seq(|table|, i requires 0 <= i < |table| => table[i].0)
  }

  /** Both tables list the same category keys, in the same order. */
  lemma TablesShareKeys(kb: KnowledgeBase)
    ensures ArticleKeys(HelpArticles(kb)) == MetadataKeys(CategoryMetadata)
  {
    var a := ArticleKeys(HelpArticles(kb));
    var m := MetadataKeys(CategoryMetadata);
    assert forall i :: 0 <= i < 6 ==> a[i] == m[i];
  }

  /** The articles stored under a key, when the key is one of the table's. */
  function Lookup(table: seq<(string, seq<Article>)>, key: string): (r: Option<seq<Article>>)
    ensures r.None? <==> key !in ArticleKeys(table)
    ensures r.Some? ==> exists i :: 0 <= i < |table| && table[i] == (key, r.value)
  {
    if table == [] then None
    else if table[0].0 == key then Some(table[0].1)
    else
      var r := Lookup(table[1..], key);
      assert ArticleKeys(table) == [table[0].0] + ArticleKeys(table[1..]);
      if r.Some? then
        var i :| 0 <= i < |table[1..]| && table[1..][i] == (key, r.value);
        assert table[i + 1] == (key, r.value);
        r
      else r
  }

  /** `articles.find(a => a.id === id)`: the first article with that id. */
  function FindById(articles: seq<Article>, id: string): (r: Option<Article>)
    ensures r.None? <==> forall k :: 0 <= k < |articles| ==> articles[k].id != id
    ensures r.Some? ==>
      (exists k :: 0 <= k < |articles| && articles[k] == r.value && r.value.id == id && (forall j :: 0 <= j < k ==> articles[j].id != id))
  {
    if articles == [] then None
    else if articles[0].id == id then Some(articles[0])
    else
      var r := FindById(articles[1..], id);
      if r.Some? then
        var k :| 0 <= k < |articles[1..]| && articles[1..][k] == r.value && r.value.id == id
          && (forall j :: 0 <= j < k ==> articles[1..][j].id != id);
        assert articles[k + 1] == r.value;
        assert forall j :: 0 <= j < k + 1 ==> articles[j].id != id by {
          forall j | 0 <= j < k + 1
            ensures articles[j].id != id
          {
            if j > 0 {
              assert articles[j] == articles[1..][j - 1];
            }
          }
        }
        r
      else
        assert forall k :: 0 <= k < |articles| ==> articles[k].id != id by {
          forall k | 0 <= k < |articles|
            ensures articles[k].id != id
          {
            if k > 0 {
              assert articles[k] == articles[1..][k - 1];
            }
          }
        }
        r
  }

  /** The articles of each entry are filed under that entry's key. */
  ghost predicate Filed(table: seq<(string, seq<Article>)>) {
    forall i, a :: 0 <= i < |table| && a in table[i].1 ==> a.category == table[i].0
  }

  ghost predicate DistinctKeys(table: seq<(string, seq<Article>)>) {
    forall i, j :: 0 <= i < j < |table| ==> table[i].0 != table[j].0
  }

  ghost predicate DistinctIds(articles: seq<Article>) {
    forall i, j :: 0 <= i < j < |articles| ==> articles[i].id != articles[j].id
  }

  /** The lookup of `getArticle` over a category table. */
  function GetIn(table: seq<(string, seq<Article>)>, category: string, articleId: string): (r: Option<Article>)
    ensures category !in ArticleKeys(table) ==> r.None?
    ensures r.Some? ==> r.value.id == articleId && exists i :: 0 <= i < |table| && table[i].0 == category && r.value in table[i].1
  {
    match Lookup(table, category)
    case None => None
    case Some(articles) =>
      var r := FindById(articles, articleId);
      if r.Some? then
        var i :| 0 <= i < |table| && table[i] == (category, articles);
        r
      else r
  }

  /** `getArticle` over the bundled table. */
  function GetArticle(kb: KnowledgeBase, category: string, articleId: string): Option<Article> {
    GetIn(HelpArticles(kb), category, articleId)
  }

  /** In a table with distinct keys the lookup of an entry's key gives that entry. */
  lemma {:induction false} LookupEntry(table: seq<(string, seq<Article>)>, i: int)
    requires DistinctKeys(table) && 0 <= i < |table|
    ensures Lookup(table, table[i].0) == Some(table[i].1)
  {
    if i > 0 {
      assert table[0].0 != table[i].0;
      assert DistinctKeys(table[1..]) by {
        forall a, b | 0 <= a < b < |table[1..]|
          ensures table[1..][a].0 != table[1..][b].0
        {
          assert table[1..][a] == table[a + 1] && table[1..][b] == table[b + 1];
        }
      }
      LookupEntry(table[1..], i - 1);
    }
  }

  /** Among articles of distinct ids the search for a member's id finds that member. */
  lemma FindMember(articles: seq<Article>, a: Article)
    requires DistinctIds(articles) && a in articles
    ensures FindById(articles, a.id) == Some(a)
  {
    var k :| 0 <= k < |articles| && articles[k] == a;
    var r := FindById(articles, a.id);
    var m :| 0 <= m < |articles| && articles[m] == r.value && r.value.id == a.id
      && (forall j :: 0 <= j < m ==> articles[j].id != a.id);
    if m != k {
      assert m < k;
      assert articles[m].id != articles[k].id;
    }
  }

  lemma {:induction false} FlattenMember(table: seq<(string, seq<Article>)>, a: Article)
    requires a in Flatten(table)
    ensures exists i :: 0 <= i < |table| && a in table[i].1
  {
    if a !in table[0].1 {
      FlattenMember(table[1..], a);
      var i :| 0 <= i < |table[1..]| && a in table[1..][i].1;
      assert table[i + 1] == table[1..][i];
    }
  }

  /** In a well-formed table every article is found under its own category by its own id. */
  lemma FindsEachIn(table: seq<(string, seq<Article>)>, a: Article)
    requires Filed(table) && DistinctKeys(table)
    requires forall i :: 0 <= i < |table| ==> DistinctIds(table[i].1)
    requires a in Flatten(table)
    ensures GetIn(table, a.category, a.id) == Some(a)
  {
    FlattenMember(table, a);
    var i :| 0 <= i < |table| && a in table[i].1;
    LookupEntry(table, i);
    FindMember(table[i].1, a);
  }

  /** Every bundled article is found under its own category by its own id. */
  lemma GetArticleFindsEach(kb: KnowledgeBase, a: Article)
    requires a in AllArticles(kb)
    ensures GetArticle(kb, a.category, a.id) == Some(a)
  {
    BundledTableWellFormed(kb);
    FindsEachIn(HelpArticles(kb), a);
  }

  lemma BundledTableWellFormed(kb: KnowledgeBase)
    ensures Filed(HelpArticles(kb)) && DistinctKeys(HelpArticles(kb))
    ensures forall i :: 0 <= i < |HelpArticles(kb)| ==> DistinctIds(HelpArticles(kb)[i].1)
  {
    var t := HelpArticles(kb);
    assert MetadataKeys(CategoryMetadata) == ArticleKeys(t) by {
      TablesShareKeys(kb);
    }
  }

  /** `Object.values(helpArticles).flat()`. */
  function Flatten(table: seq<(string, seq<Article>)>): (r: seq<Article>)
  {
    if table == [] then [] else table[0].1 + Flatten(table[1..])
  }

  function AllArticles(kb: KnowledgeBase): seq<Article> {
    Flatten(HelpArticles(kb))
  }

  lemma FlattenSix(t: seq<(string, seq<Article>)>)
    requires |t| == 6
    ensures Flatten(t) == t[0].1 + t[1].1 + t[2].1 + t[3].1 + t[4].1 + t[5].1
  {
    assert t[5..][1..] == [];
    assert Flatten(t[5..]) == t[5].1 + Flatten([]);
    assert t[4..][1..] == t[5..];
    assert Flatten(t[4..]) == t[4].1 + Flatten(t[5..]);
    assert t[3..][1..] == t[4..];
    assert Flatten(t[3..]) == t[3].1 + Flatten(t[4..]);
    assert t[2..][1..] == t[3..];
    assert Flatten(t[2..]) == t[2].1 + Flatten(t[3..]);
    assert t[1..][1..] == t[2..];
    assert Flatten(t[1..]) == t[1].1 + Flatten(t[2..]);
  }

  /** All articles, category by category in key order: seven in all. */
  lemma SevenArticles(kb: KnowledgeBase)
    ensures AllArticles(kb) == [Introduction(kb)] + [TimerGuide(kb)] + [ProjectsTasks(kb)] + [ReportsBilling(kb)]
      + [Faqs(kb)] + [OrganizationsTeams(kb), SettingsSecurity(kb)]
  {
    FlattenSix(HelpArticles(kb));
  }

  lemma SevenInAll(kb: KnowledgeBase)
    ensures |AllArticles(kb)| == 7
  {
    SevenArticles(kb);
  }

  /** Whether an article mentions the lowercased query in its title, description or content. */
  function Mentions(lowerQuery: string): Article -> bool {
    (a: Article) => Contains(ToLower(a.title), lowerQuery) || Contains(ToLower(a.description), lowerQuery)
      || Contains(ToLower(a.content), lowerQuery)
  }

  /** The search of `searchArticles` over a list: nothing for a blank query, otherwise the members mentioning it. */
  function Search(articles: seq<Article>, query: string): (r: seq<Article>)
    ensures IsBlank(query) ==> r == []
    ensures !IsBlank(query) ==> forall a :: a in r <==> a in articles && Mentions(ToLower(query))(a)
  {
    TrimEmptyIffBlank(query);
    if Trim(query) == [] then []
    else
      var r := Filter(articles, Mentions(ToLower(query)));
      assert forall a :: a in r <==> a in articles && Mentions(ToLower(query))(a) by {
        forall a
          ensures a in r <==> a in articles && Mentions(ToLower(query))(a)
        {
          FilterIff(articles, Mentions(ToLower(query)), a);
        }
      }
      r
  }

  /** `searchArticles` over all bundled articles. */
  function SearchArticles(kb: KnowledgeBase, query: string): seq<Article> {
    Search(AllArticles(kb), query)
  }

  /** The search keeps the order of the articles: it is their filter by the test above. */
  lemma SearchIsFilter(articles: seq<Article>, query: string)
    requires !IsBlank(query)
    ensures Search(articles, query) == Filter(articles, Mentions(ToLower(query)))
  {
    TrimEmptyIffBlank(query);
  }
}
