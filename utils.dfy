/** The page-name to path table of the front end. */
module Utils {
  /** The eight pages with a fixed path. */
  const Paginas: seq<string> := ["Dashboard", "GrafoMaterias", "Coleccion", "Estadisticas", "Estudio",
                                 "DetalleMateria", "Logros", "Calendario"]

  /**
   * The members every plain object literal inherits from `Object.prototype`:
   * looked up by name they are found, and each is truthy (a function, or the
   * prototype object itself for `__proto__`).
   */
  const Prototipo: set<string> := {"constructor", "hasOwnProperty", "isPrototypeOf", "propertyIsEnumerable",
                                   "toLocaleString", "toString", "valueOf", "__defineGetter__",
                                   "__defineSetter__", "__lookupGetter__", "__lookupSetter__", "__proto__"}

  /** What `map[pageName] || '/'` yields: a path, or the inherited member of that name. */
  datatype Destino = Ruta(path: string) | Heredado(miembro: string)

  /**
   * `createPageUrl(pageName)`: the table's path; for a name the table does
   * not hold, the inherited member when `Object.prototype` has one, else `/`.
   */
  function CreatePageUrl(pageName: string): (r: Destino)
    ensures r.Ruta? ==> |r.path| >= 1 && r.path[0] == '/'
  {
    if pageName == "Dashboard" then Ruta("/")
    else if pageName == "GrafoMaterias" then Ruta("/grafo")
    else if pageName == "Coleccion" then Ruta("/coleccion")
    else if pageName == "Estadisticas" then Ruta("/estadisticas")
    else if pageName == "Estudio" then Ruta("/estudio")
    else if pageName == "DetalleMateria" then Ruta("/detalle")
    else if pageName == "Logros" then Ruta("/logros")
    else if pageName == "Calendario" then Ruta("/calendario")
    else if pageName in Prototipo then Heredado(pageName)
    else Ruta("/")
  }

  /** Any other name outside the table leads to the dashboard's `/`. */
  lemma Desconocida(pageName: string)
    requires pageName !in Paginas && pageName !in Prototipo
    ensures CreatePageUrl(pageName) == Ruta("/")
  {
  }

  /** Exactly the inherited names give something other than a path, and then that very member. */
  lemma HeredadoSoloPrototipo(pageName: string)
    ensures CreatePageUrl(pageName).Heredado? <==> pageName in Prototipo
    ensures CreatePageUrl(pageName).Heredado? ==> CreatePageUrl(pageName).miembro == pageName
  {
  }

  /** Two different pages of the table never share a path. */
  lemma Inyectiva(i: int, j: int)
    requires 0 <= i < |Paginas| && 0 <= j < |Paginas| && i != j
    ensures CreatePageUrl(Paginas[i]) != CreatePageUrl(Paginas[j])
  {
  }

  /** Only the dashboard's own name and unknown, uninherited names give `/`. */
  lemma RaizSoloDashboard(pageName: string)
    ensures CreatePageUrl(pageName) == Ruta("/") <==>
      pageName == "Dashboard" || (pageName !in Paginas && pageName !in Prototipo)
  {
  }
}
