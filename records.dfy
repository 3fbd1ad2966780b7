/** The project record the remote content API returns, reduced to the fields the
    gallery's browsing logic reads: slugs, titles and images only feed the markup. */
module Records {
  import opened Wrappers

  /** `category` is absent (None) when the API record carries no category. */
  datatype Project = Project(id: string, category: Option<string>, featured: bool)
}
