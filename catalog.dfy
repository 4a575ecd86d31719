/** The catalog record. The catalog module itself (the list of projects, the
    category list, the lookup by id) is not part of this model: operations
    that consult it take it as a parameter. */
module Catalog {
  import opened Common

  /** One catalog entry. Absent optional booleans (`nda?`, `featured?`) read
      as false, which is how the components test them. */
  datatype Project = Project(
    id: string,
    title: string,
    description: string,
    longDescription: string,
    category: string,
    tech: seq<string>,
    liveUrl: Option<string>,
    githubUrl: Option<string>,
    gitlabUrl: Option<string>,
    nda: bool,
    featured: bool,
    highlights: Option<seq<string>>)

  /** The pseudo-category that disables category filtering. */
  const AllCategories: string := "All"
}
