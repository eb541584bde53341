# Blog page builder (gatsby-node.js `createPages`)

This project models the build-time page builder of a Gatsby blog. Gatsby's
GraphQL layer hands `createPages` every MDX post, sorted by publication date.
The builder walks the posts in that order. For each post it issues these
calls, in this order:

- `createPage` for the canonical blog page, at the post's slug;
- a second `createPage` for the AMP page at `slug + "amp/"`, unless the
  post's `include_KaTeX` is exactly `true`;
- `createRedirect`, a permanent redirect from `String(redirect_from)` to the
  slug. This call is made for every post.

Both pages get the same context:

- the slug;
- the previous and next post in date order, or null at either end;
- the post's series cohort. When the post's `series` is truthy, the cohort
  is every post with that same series, in input order. Otherwise it is empty.

Modules:

- `Wrappers` (wrappers.dfy): `Option`, which stands for a nullable field.
- `Posts` (posts.dfy): the queried post record, typed after the Frontmatter
  schema. It also holds JavaScript truthiness of a nullable string and
  `String()` of a value that may be null or undefined.
- `PageContext` (page_context.dfy): the per-page context fields, written as
  pure functions, and what is proved about them.
- `PageBuilder` (page_builder.dfy): the instructions the builder issues.
  - `PageInstructions` is the pure specification of the whole output.
  - The method `CreatePages` is the `forEach` loop. It is proved equal to
    that specification.
  - Lemmas prove ordering, counting and per-kind properties of the
    specification.
  - The output is defined for any sequence of per-post contexts. The shape
    lemmas (`IssuedLength`, `IssuedPrefix`, `KindsOfBlock`) hold for every
    such sequence. The builder's own output uses `Contexts(posts)`, whose
    i-th entry is `ContextAt(posts, i)`.

The calls to `createPage` and `createRedirect` are modelled as an output
sequence of `Instruction` values. Each template's file path is replaced by
the constructor tag: `Canonical` or `Amp`.

Running the builder twice on the same input gives the same output. This
follows from `CreatePages` being equal to the function `PageInstructions`.

A nullable `redirect_from` is modelled with three states: a string, `null`
or `undefined`. JavaScript's `String` turns the last two into `"null"` and
`"undefined"`, and the model keeps both. GraphQL returns `null` for an
absent nullable field, so in practice the redirect comes from `"null"`.
Redirects are issued unconditionally, as the code does, including for posts
without `redirect_from`.

The AMP page is skipped only on an exact `true`. An explicit `false` and an
absent value both produce it. This follows the code at gatsby-node.js:69.

## Model

| member | source | states |
|---|---|---|
| `PageBuilder.CreatePages` | gatsby-node.js:48-92 | The loop issues exactly `PageInstructions(posts)`, the instruction sequence built post by post in input order. It issues 2·n + (number of posts whose `include_KaTeX` is not `true`) instructions. |
| `PageBuilder.EmittedForPost` | gatsby-node.js:48-92 | Post i owns a contiguous block of the output. The block is 3 instructions long when it gets an AMP page and 2 otherwise. It holds the canonical page at the slug with the post's context. Next comes the AMP page at `slug + "amp/"` with the same context, exactly when `include_KaTeX` is not `true`. Last comes the permanent redirect from `String(redirect_from)` to the slug. |
| `PageBuilder.IssuedPrefix` | gatsby-node.js:48 | Later iterations only append. What the first m posts issue is a prefix of what the first n posts issue, for m ≤ n and for any contexts. |
| `PageBuilder.IssuedLength` | gatsby-node.js:48-92 | The first n posts issue 2·n instructions plus one per post whose `include_KaTeX` is not `true`, whatever their contexts. |
| `PageBuilder.CanonicalPages` | gatsby-node.js:49-68 | The canonical pages among the output are exactly one per post, in input order. The i-th is at post i's slug and carries post i's context. |
| `PageBuilder.Redirects` | gatsby-node.js:87-91 | The redirects among the output are exactly one per post, in input order. Each goes from `String(redirect_from)` to the slug and is permanent. This holds whether `redirect_from` is set or not. |
| `PageBuilder.AmpPages` | gatsby-node.js:69-86 | The AMP pages among the output are, in post order, one per post whose `include_KaTeX` is not exactly `true`. Each is at `slug + "amp/"` with that post's context. Their number is the number of such posts. |
| `PageBuilder.KindsOfBlock` | gatsby-node.js:49-91 | One post's block holds one canonical page and one redirect. It holds one AMP page when `include_KaTeX` is not `true`, and none otherwise. |
| `PageBuilder.ThreePostScenario` | gatsby-node.js:48-92 | Input: posts /a and /b in series "S", then /c with no series. Post /b gets /a and /c as neighbours and the cohort [/a, /b]. Post /c gets no next post and an empty cohort. The output is nine instructions: canonical, AMP and redirect per post, in order. |
| `PageContext.ContextOfPost` | gatsby-node.js:55-66 | The context carries the post's slug. `prevPost` is null exactly at index 0 and is the post before otherwise. `nextPost` is null exactly at the last index and is the post after otherwise. The cohort is empty when the series is absent or empty. Otherwise it is the series filter over all posts (`SeriesMembers`), so it contains the post itself, and a post is in it exactly when that post is in the input with the same series. |
| `PageContext.SameSeriesSameCohort` | gatsby-node.js:62-66 | Two posts with the same non-empty series get identical cohorts. Each is in the other's cohort, and the cohort is the filter of the posts on that series. |
| `PageContext.SeriesMembership` | gatsby-node.js:63-65 | Filtering the first n posts on series s keeps a post exactly when it is among those n posts and its series is s. |
| `PageContext.SeriesMembersIsSubsequence` | gatsby-node.js:63-65 | The cohort is the subsequence of the input at the ascending positions whose series is s. Every such position appears, and no other does. So input order is kept and nothing is dropped or repeated. |
| `PageContext.SeriesPositionsAscend` | gatsby-node.js:63-65 | The positions the series filter selects among the first n posts are below n and strictly ascending. |
| `PageContext.SeriesPositionsExact` | gatsby-node.js:63-65 | A position below n is selected by the series filter exactly when the post there has series s. |
| `PageContext.SeriesMembersAt` | gatsby-node.js:63-65 | The k-th post kept by the filter over the first n posts is the post at the k-th selected position, and there are as many kept posts as positions. |

## Left out

- `onCreateNode` (gatsby-node.js:5-13) is left out. The slug comes from the library function `createFilePath`, and `createNodeField` is a framework action. The slug is an input field of `Post`.
- The GraphQL query and its date sort (gatsby-node.js:24-43) are left out. The builder never reads the date, so sortedness is not a precondition and `Post` has no date field.
- The Promise, `.then` and `resolve` wrapping (gatsby-node.js:19, 43, 94) is left out, because it is asynchronous plumbing with no logic.
- The template file paths from `path.resolve` (gatsby-node.js:51, 72) are replaced by the `Canonical` and `Amp` tags.
- The side effects of `createPage` and `createRedirect` on the framework are left out. Only the sequence of calls and their arguments is modelled.
- `onCreateWebpackConfig` (gatsby-node.js:99-132) is left out, because it only mutates build configuration.
- `createSchemaCustomization` (gatsby-node.js:134-155) is a static type declaration. It only sets the field types of `Post`.
- The React components in src/components/about-me/sections/workshops.jsx, src/components/card/card.jsx and src/components/card.js are left out, because they only render props into markup.
- Slug uniqueness is assumed upstream and never used by the builder, so it is not modelled.
- The shapes of the context's entries are not modelled. `prevPost` and `nextPost` are the query's bare nodes (gatsby-node.js:59-60). `seriesPosts` holds the query's edges, which are `{node: …}` wrappers, because the filter at gatsby-node.js:63-65 runs over `result.data.allMdx.edges` (gatsby-node.js:46). `Post` stands for both, and it also flattens `fields.slug` and the `frontmatter` fields into one record.
- Object identity is not modelled. The JavaScript context holds references to the query's objects, while the model holds equal values.
- A post with a null `frontmatter` is not modelled. The schema leaves `frontmatter` nullable (gatsby-node.js:138), and a post without the required `title` arrives that way. For such a post, reading `node.frontmatter.series` at gatsby-node.js:62 throws a TypeError. The filter callback at gatsby-node.js:64 throws on it too, while any post with a truthy series is being processed. `createPages` then stops partway through: the calls already made stay made and `resolve()` (gatsby-node.js:94) is never reached. The model assumes every post has its frontmatter, because the schema's required fields are guaranteed upstream.
