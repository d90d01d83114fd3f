/** The shared types of the client: the eight result categories a user can
    pick and the normalised search result. (The module that declares them in
    the repository, `src/types`, is not part of this model; their shape is
    the one the other files use.) */
module SearchTypes {

  /** The selected result category. */
  datatype SearchSource = Search | Images | Videos | Places | News | Shopping | Scholar | Patents {
    /** The string value the category has in the source (`'search'`, `'images'`, ...). */
    function Name(): (n: string)
      ensures |n| > 0
    {
      match this
      case Search => "search"
      case Images => "images"
      case Videos => "videos"
      case Places => "places"
      case News => "news"
      case Shopping => "shopping"
      case Scholar => "scholar"
      case Patents => "patents"
    }
  }

  /** A normalised result: `title` and `link` are always there; every other
      field is category-specific and kept here as an opaque map. */
  datatype SearchResult = SearchResult(title: string, link: string, details: map<string, string>)
}
