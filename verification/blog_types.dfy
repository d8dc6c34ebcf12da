/** The records of the blog: posts, categories and tags, and the partial
    records `update*` accepts, whose present fields override a stored record
    the way an object spread `{ ...stored, ...updates }` does. */
module BlogTypes {
  import opened Wrappers

  datatype Status = Draft | Published | Archived

  datatype Author = Author(id: string, name: string, avatar: string)

  datatype Seo = Seo(title: string, description: string, keywords: seq<string>, ogImage: Option<string>)

  /** Dates are milliseconds since the epoch. */
  datatype Post = Post(
    id: string,
    title: string,
    slug: string,
    content: string,
    excerpt: string,
    author: Author,
    category: string,
    tags: seq<string>,
    publishedAt: int,
    updatedAt: Option<int>,
    status: Status,
    seo: Seo,
    readingTime: int)

  datatype Category = Category(id: string, name: string, slug: string, description: Option<string>)

  datatype Tag = Tag(id: string, name: string, slug: string)

  /** `Partial<Post>`: `None` is a field the update leaves out. */
  datatype PostPatch = PostPatch(
    id: Option<string>,
    title: Option<string>,
    slug: Option<string>,
    content: Option<string>,
    excerpt: Option<string>,
    author: Option<Author>,
    category: Option<string>,
    tags: Option<seq<string>>,
    publishedAt: Option<int>,
    updatedAt: Option<int>,
    status: Option<Status>,
    seo: Option<Seo>,
    readingTime: Option<int>)

  datatype CategoryPatch = CategoryPatch(
    id: Option<string>,
    name: Option<string>,
    slug: Option<string>,
    description: Option<string>)

  datatype TagPatch = TagPatch(id: Option<string>, name: Option<string>, slug: Option<string>)

  const NoPostChanges := PostPatch(None, None, None, None, None, None, None, None, None, None, None, None, None)
  const NoCategoryChanges := CategoryPatch(None, None, None, None)
  const NoTagChanges := TagPatch(None, None, None)

  function PublishedAt(p: Post): int {
    p.publishedAt
  }

  /** `{ ...p, ...patch }`: a shallow override, field by field. */
  function PatchPost(p: Post, patch: PostPatch): Post {
    Post(
      patch.id.GetOr(p.id),
      patch.title.GetOr(p.title),
      patch.slug.GetOr(p.slug),
      patch.content.GetOr(p.content),
      patch.excerpt.GetOr(p.excerpt),
      patch.author.GetOr(p.author),
      patch.category.GetOr(p.category),
      patch.tags.GetOr(p.tags),
      patch.publishedAt.GetOr(p.publishedAt),
      if patch.updatedAt.Some? then patch.updatedAt else p.updatedAt,
      patch.status.GetOr(p.status),
      patch.seo.GetOr(p.seo),
      patch.readingTime.GetOr(p.readingTime))
  }

  function PatchCategory(c: Category, patch: CategoryPatch): Category {
    Category(
      patch.id.GetOr(c.id),
      patch.name.GetOr(c.name),
      patch.slug.GetOr(c.slug),
      if patch.description.Some? then patch.description else c.description)
  }

  function PatchTag(t: Tag, patch: TagPatch): Tag {
    Tag(patch.id.GetOr(t.id), patch.name.GetOr(t.name), patch.slug.GetOr(t.slug))
  }

  /** An update without fields changes nothing, and an update never
      recomputes the derived slug or reading time: a new title or content
      leaves them as they were unless they are supplied too. */
  lemma PatchPostKeepsUnsupplied(p: Post, patch: PostPatch)
    ensures PatchPost(p, NoPostChanges) == p
    ensures patch.slug.None? ==> PatchPost(p, patch).slug == p.slug
    ensures patch.readingTime.None? ==> PatchPost(p, patch).readingTime == p.readingTime
    ensures patch.title.Some? ==> PatchPost(p, patch).title == patch.title.value
  {
  }

  lemma PatchCategoryKeepsUnsupplied(c: Category, patch: CategoryPatch)
    ensures PatchCategory(c, NoCategoryChanges) == c
    ensures patch.slug.None? ==> PatchCategory(c, patch).slug == c.slug
  {
  }

  lemma PatchTagKeepsUnsupplied(t: Tag, patch: TagPatch)
    ensures PatchTag(t, NoTagChanges) == t
    ensures patch.slug.None? ==> PatchTag(t, patch).slug == t.slug
  {
  }
}
