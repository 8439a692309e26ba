/** The Projects page: the project catalog, the category filter over it, the
    featured selection, and the page state the category buttons and the code
    dialog change. */
module Projects {
  import opened Text
  import opened Catalog

  datatype Project = Project(
    id: int,
    title: String,
    description: String,
    longDescription: String,
    image: String,
    technologies: seq<String>,
    githubUrl: String,
    liveUrl: String,
    featured: bool,
    category: String,
    codeSnippet: Option<String>)

  /** The pseudo-category that shows the catalog unfiltered. */
  const AllProjects: String := "all"

  /** The values of the category buttons. */
  const ProjectCategories: seq<String> := ["all", "frontend", "full-stack", "mobile"]

  /** The test `project.category === selectedCategory`. */
  function InCategory(category: String): Project -> bool
  {
    (p: Project) => p.category == category
  }

  /** The test `project.featured`. */
  function IsFeatured(p: Project): bool
  {
    p.featured
  }

  /** `filteredProjects`: the whole catalog for "all"; otherwise the projects
      of the selected category, in catalog order, each as often as in the
      catalog. */
  function FilteredProjects(projects: seq<Project>, category: String): (r: seq<Project>)
    ensures category == AllProjects ==> r == projects
    ensures category != AllProjects ==> forall p :: p in r <==> p in projects && p.category == category
    ensures category != AllProjects ==>
              forall p :: multiset(r)[p] == if p.category == category then multiset(projects)[p] else 0
    ensures IsSubsequence(r, projects)
  {
    if category == AllProjects then
      SubsequenceOfSelf(projects);
      projects
    else
      SelectMembers(projects, InCategory(category));
      SelectIsSubsequence(projects, InCategory(category));
      SelectMultiset(projects, InCategory(category));
      Select(projects, InCategory(category))
  }

  /** `featuredProjects`: the projects marked featured, in catalog order and
      each as often as in the catalog. It takes no page state, so the
      category never changes it. */
  function FeaturedProjects(projects: seq<Project>): (r: seq<Project>)
    ensures forall p :: p in r <==> p in projects && p.featured
    ensures forall p :: multiset(r)[p] == if p.featured then multiset(projects)[p] else 0
    ensures IsSubsequence(r, projects)
  {
    SelectMembers(projects, IsFeatured);
    SelectIsSubsequence(projects, IsFeatured);
    SelectMultiset(projects, IsFeatured);
    Select(projects, IsFeatured)
  }

  /** A category that no project has lists nothing. */
  lemma EmptyCategoryListsNothing(projects: seq<Project>, category: String)
    requires category != AllProjects
    requires forall p :: p in projects ==> p.category != category
    ensures FilteredProjects(projects, category) == []
  {
    SelectNone(projects, InCategory(category));
  }

  /** When every project is of the selected category, the filter keeps them
      all, just as "all" does. */
  lemma SingleCategoryListsAll(projects: seq<Project>, category: String)
    requires forall p :: p in projects ==> p.category == category
    ensures FilteredProjects(projects, category) == projects
  {
    if category != AllProjects {
      SelectAll(projects, InCategory(category));
    }
  }

  /** The "View Code" control is rendered only for a project whose snippet is
      present and, being tested for truthiness, not the empty string. */
  predicate HasCode(p: Project)
  {
    p.codeSnippet.Some? && p.codeSnippet.value != []
  }


  /** The categories of the page's six projects, in catalog order. */
  const SampleCategories: seq<String> := ["full-stack", "full-stack", "frontend", "full-stack", "full-stack", "frontend"]

  /** Which of the six are featured. */
  const SampleFeatured: seq<bool> := [true, true, false, false, true, false]

  /** Which of the six carry a code sample (the first two, both non-empty). */
  const SampleHasCode: seq<bool> := [true, true, false, false, false, false]

  /** A catalog laid out like the page's: the titles, descriptions, links and
      code samples are text that no filter reads, so they are left free. */
  ghost predicate LikeSample(projects: seq<Project>)
  {
    && |projects| == 6
    && (forall k :: 0 <= k < 6 ==> projects[k].category == SampleCategories[k])
    && (forall k :: 0 <= k < 6 ==> projects[k].featured == SampleFeatured[k])
    && (forall k :: 0 <= k < 6 ==> HasCode(projects[k]) == SampleHasCode[k])
  }

  /** No project of the page is a mobile project, so "Mobile" lists nothing. */
  lemma MobileListsNothing(projects: seq<Project>)
    requires LikeSample(projects)
    ensures FilteredProjects(projects, "mobile") == []
  {
    forall p | p in projects
      ensures p.category != "mobile"
    {
      var k :| 0 <= k < 6 && projects[k] == p;
      assert p.category == SampleCategories[k];
    }
    EmptyCategoryListsNothing(projects, "mobile");
  }

  lemma FrontendTests(projects: seq<Project>)
    requires LikeSample(projects)
    ensures InCategory("frontend")(projects[2]) && InCategory("frontend")(projects[5])
    ensures !InCategory("frontend")(projects[0]) && !InCategory("frontend")(projects[1])
    ensures !InCategory("frontend")(projects[3]) && !InCategory("frontend")(projects[4])
  {
    assert forall k :: 0 <= k < 6 ==> InCategory("frontend")(projects[k]) == (SampleCategories[k] == "frontend");
  }

  lemma FrontendSuffix(projects: seq<Project>)
    requires LikeSample(projects)
    ensures Select(projects[2..], InCategory("frontend")) == [projects[2], projects[5]]
  {
    var keep := InCategory("frontend");
    FrontendTests(projects);
    var t5 := projects[5..];
    var t4 := projects[4..];
    var t3 := projects[3..];
    assert t4 == [projects[4]] + t5 && t3 == [projects[3]] + t4 && projects[2..] == [projects[2]] + t3;
    SelectCons(projects[5], [], keep);
    assert t5 == [projects[5]] + [];
    assert Select(t5, keep) == [projects[5]];
    SelectCons(projects[4], t5, keep);
    SelectCons(projects[3], t4, keep);
    assert Select(t3, keep) == [projects[5]];
    SelectCons(projects[2], t3, keep);
  }

  /** "Frontend" lists the third and the sixth project. */
  lemma FrontendListsTwo(projects: seq<Project>)
    requires LikeSample(projects)
    ensures FilteredProjects(projects, "frontend") == [projects[2], projects[5]]
  {
    var keep := InCategory("frontend");
    FrontendTests(projects);
    FrontendSuffix(projects);
    var t1 := projects[1..];
    assert t1 == [projects[1]] + projects[2..] && projects == [projects[0]] + t1;
    SelectCons(projects[1], projects[2..], keep);
    assert Select(t1, keep) == [projects[2], projects[5]];
    SelectCons(projects[0], t1, keep);
    assert Select(projects, keep) == [projects[2], projects[5]];
  }

  lemma FeaturedTests(projects: seq<Project>)
    requires LikeSample(projects)
    ensures IsFeatured(projects[0]) && IsFeatured(projects[1]) && IsFeatured(projects[4])
    ensures !IsFeatured(projects[2]) && !IsFeatured(projects[3]) && !IsFeatured(projects[5])
  {
    assert forall k :: 0 <= k < 6 ==> IsFeatured(projects[k]) == SampleFeatured[k];
  }

  /** Of the last four projects only the fifth one overall is featured. */
  lemma FeaturedSuffix(projects: seq<Project>)
    requires LikeSample(projects)
    ensures Select(projects[2..], IsFeatured) == [projects[4]]
  {
    FeaturedTests(projects);
    var t5 := projects[5..];
    var t4 := projects[4..];
    var t3 := projects[3..];
    assert t4 == [projects[4]] + t5 && t3 == [projects[3]] + t4 && projects[2..] == [projects[2]] + t3;
    SelectCons(projects[5], [], IsFeatured);
    assert t5 == [projects[5]] + [];
    assert Select(t5, IsFeatured) == [];
    SelectCons(projects[4], t5, IsFeatured);
    assert Select(t4, IsFeatured) == [projects[4]];
    SelectCons(projects[3], t4, IsFeatured);
    SelectCons(projects[2], t3, IsFeatured);
  }

  /** The filter on `featured`, applied to the six projects, keeps the first,
      second and fifth. */
  lemma FeaturedSelect(projects: seq<Project>)
    requires LikeSample(projects)
    ensures Select(projects, IsFeatured) == [projects[0], projects[1], projects[4]]
  {
    FeaturedTests(projects);
    FeaturedSuffix(projects);
    var t1 := projects[1..];
    assert t1 == [projects[1]] + projects[2..] && projects == [projects[0]] + t1;
    SelectCons(projects[1], projects[2..], IsFeatured);
    assert Select(t1, IsFeatured) == [projects[1], projects[4]];
    SelectCons(projects[0], t1, IsFeatured);
  }

  /** The first, second and fifth projects are featured. */
  lemma SampleFeaturedProjects(projects: seq<Project>)
    requires LikeSample(projects)
    ensures FeaturedProjects(projects) == [projects[0], projects[1], projects[4]]
  {
    FeaturedSelect(projects);
  }

  /** Of the featured projects only the first two have a code sample, so only
      they show "View Code". */
  lemma SampleViewCode(projects: seq<Project>)
    requires LikeSample(projects)
    ensures HasCode(projects[0]) && HasCode(projects[1]) && !HasCode(projects[4])
  {
    assert forall k :: 0 <= k < 6 ==> HasCode(projects[k]) == SampleHasCode[k];
  }

  /** The state of the Projects page: the selected category and the project
      whose code dialog is open. */
  class ProjectsPage {
    const projects: seq<Project>
    var selectedCategory: String
    var selectedProject: Option<Project>

    /** The category is one of the buttons' values, and the code dialog is
        only ever open on a featured project that has a code sample: the
        "View Code" control is the only way to open it. */
    ghost predicate Valid()
      reads this
    {
      && selectedCategory in ProjectCategories
      && (selectedProject.Some? ==>
            selectedProject.value in FeaturedProjects(projects) && HasCode(selectedProject.value))
    }

    /** Mounting the page: every category, no dialog open. */
    constructor (projects: seq<Project>)
      ensures Valid()
      ensures this.projects == projects
      ensures selectedCategory == AllProjects && selectedProject == None
    {
      this.projects := projects;
      selectedCategory := AllProjects;
      selectedProject := None;
    }

    /** The projects in the grid under the category buttons. */
    function Listed(): (r: seq<Project>)
      reads this
      ensures IsSubsequence(r, projects)
    {
      FilteredProjects(projects, selectedCategory)
    }

    /** A category button selects its value; the open dialog is untouched. */
    method SelectCategory(category: String)
      requires Valid()
      requires category in ProjectCategories
      modifies this
      ensures Valid()
      ensures selectedCategory == category
      ensures selectedProject == old(selectedProject)
    {
      selectedCategory := category;
    }

    /** "View Code" on a featured card opens the dialog on that project; the
        category is untouched. */
    method ViewCode(p: Project)
      requires Valid()
      requires p in FeaturedProjects(projects) && HasCode(p)
      modifies this
      ensures Valid()
      ensures selectedProject == Some(p)
      ensures selectedCategory == old(selectedCategory)
    {
      selectedProject := Some(p);
    }

    /** A click while the dialog is open: the close button and the backdrop
        close it, a click inside the panel leaves it open. */
    method Click(target: ClickTarget)
      requires Valid() && selectedProject.Some?
      modifies this
      ensures Valid()
      ensures selectedProject == if target == Panel then old(selectedProject) else None
      ensures selectedCategory == old(selectedCategory)
    {
      if target != Panel {
        selectedProject := None;
      }
    }

    /** "Copy Code" hands the open project's code sample, which is never
        empty, to the clipboard. The page state is unchanged. */
    method CopyCode() returns (text: String)
      requires Valid() && selectedProject.Some?
      ensures text == selectedProject.value.codeSnippet.value
      ensures text != []
    {
      text := selectedProject.value.codeSnippet.value;
    }
  }
}
