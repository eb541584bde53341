/**
 * The blog post record as the page builder receives it from the content
 * query of gatsby-node.js: the slug computed per node, plus the frontmatter
 * fields the query selects, typed after the Frontmatter schema.
 */
module Posts {
  import opened Wrappers

  /** A JavaScript value of a nullable GraphQL field: a value, null or undefined. */
  datatype Nullish<T> = Value(value: T) | Null | Undefined

  /**
   * One queried post. `includeKaTeX` is a nullable Boolean, `series` and
   * `redirectFrom` nullable Strings, `part` a nullable Int. The date the
   * query sorts by is not selected, and the builder never reads it.
   */
  datatype Post = Post(
    slug: string,
    title: string,
    includeKaTeX: Option<bool>,
    redirectFrom: Nullish<string>,
    series: Option<string>,
    part: Option<int>)

  /** JavaScript truthiness of a nullable string: present and non-empty. */
  predicate IsTruthy(s: Option<string>)
  {
    s.Some? && s.value != ""
  }

  /** JavaScript `String(x)` on a nullable string. */
  function ToJsString(x: Nullish<string>): string
  {
    match x
    case Value(s) => s
    case Null => "null"
    case Undefined => "undefined"
  }
}
