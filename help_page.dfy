/**
 * The help home page: six category cards filtered by the search box.
 */
module HelpPage {
  import opened Common
  import HelpContent

  datatype Category = Category(icon: string, title: string, description: string, color: string, bg: string)

  const Categories: seq<Category> := [
    Category("Rocket", "Primeros Pasos", "Configura tu cuenta, crea tu organización y empieza a trackear.", "text-blue-500", "bg-blue-500/10"),
    Category("Clock", "Tracking de Tiempo", "Aprende a usar el cronómetro, entradas manuales y atajos.", "text-lime-500", "bg-lime-500/10"),
    Category("FolderKanban", "Gestión de Proyectos", "Organiza tu trabajo con proyectos, tareas y clientes.", "text-purple-500", "bg-purple-500/10"),
    Category("BarChart3", "Reportes y Análisis", "Interpreta tus datos, exporta informes y visualiza tu productividad.", "text-orange-500", "bg-orange-500/10"),
    Category("Wrench", "Solución de Problemas", "Respuestas a preguntas frecuentes y errores comunes.", "text-red-500", "bg-red-500/10"),
    Category("Settings", "Administración", "Gestiona tu equipo, facturación y configuración del espacio.", "text-zinc-500", "bg-zinc-500/10")
  ]

  /** Whether a card's lowercased title or description contains the lowercased query. */
  function Matches(query: string): Category -> bool {
    (c: Category) => Contains(ToLower(c.title), ToLower(query)) || Contains(ToLower(c.description), ToLower(query))
  }

  /** `filteredCategories`. */
  function Filtered(cards: seq<Category>, query: string): (r: seq<Category>)
    ensures forall c :: c in r <==> c in cards && Matches(query)(c)
  {
    var r := Filter(cards, Matches(query));
    assert forall c :: c in r <==> c in cards && Matches(query)(c) by {
      forall c
        ensures c in r <==> c in cards && Matches(query)(c)
      {
        FilterIff(cards, Matches(query), c);
      }
    }
    r
  }

  /** The empty query keeps every card, in order. */
  lemma EmptyQueryKeepsAll(cards: seq<Category>)
    ensures Filtered(cards, "") == cards
  {
    forall k | 0 <= k < |cards|
      ensures Matches("")(cards[k])
    {
      ContainsEmpty(ToLower(cards[k].title));
    }
    FilterAll(cards, Matches(""));
  }

  lemma SixCategories()
    ensures |Filtered(Categories, "")| == 6
  {
    EmptyQueryKeepsAll(Categories);
  }

  /**
   * Typing more narrows the result: when `q` occurs in `longer`, the cards kept
   * for `longer` are those kept for `q` filtered again, so a subsequence of them.
   */
  lemma LongerQueryNarrows(cards: seq<Category>, q: string, longer: string)
    requires Contains(longer, q)
    ensures Filtered(cards, longer) == Filter(Filtered(cards, q), Matches(longer))
  {
    forall c | Matches(longer)(c)
      ensures Matches(q)(c)
    {
      ContainsLower(longer, q);
      if Contains(ToLower(c.title), ToLower(longer)) {
        ContainsTransitive(ToLower(c.title), ToLower(longer), ToLower(q));
      } else {
        ContainsTransitive(ToLower(c.description), ToLower(longer), ToLower(q));
      }
    }
    FilterStricter(cards, Matches(longer), Matches(q));
  }

  /** The cards show the titles and descriptions of the category table, in its order. */
  lemma CardsMatchCategoryTable()
    ensures |Categories| == |HelpContent.CategoryMetadata|
    ensures forall i :: 0 <= i < |Categories| ==>
      Categories[i].title == HelpContent.CategoryMetadata[i].1 && Categories[i].description == HelpContent.CategoryMetadata[i].2
  {
  }
}
