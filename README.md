# Portfolio site: the page logic

This project models the logic inside the four content pages of a personal
portfolio site written in React:

- the **Blog** page: the post catalog, the category buttons and search box that filter it, the featured list, the article dialog, and the line-by-line renderer that turns a post's body into headings, code lines, paragraphs and line breaks;
- the **Projects** page: the category filter, the featured list, and the code-sample dialog with its "View Code" and "Copy Code" controls;
- the **Resume** page: the plain-text résumé that the download button builds from the résumé record, and the name of the downloaded file;
- the **Contact** page: the four-field message form, its change handler, and the submit handler that hands the fields to a mail relay and reacts to its answer.

Each page's state (`useState` hooks) is a Dafny `class`. Its fields are the
hooks' values. Its methods are the event handlers, with `modifies` and
`ensures` clauses that state the whole new state.

The pure computations are Dafny functions, and lemmas state their properties:
- the filters, with their membership, order and exact multiplicity properties;
- the renderer;
- the résumé template;
- the file name.

The JavaScript string operations they rely on live in module `Text`, each
with its ECMAScript meaning written out:
- `trim` and the regular-expression class `\s` (the ECMAScript WhiteSpace
  and LineTerminator characters);
- `toLowerCase`, `includes`, `split`, `join`, and `replace` with a string
  pattern.

Module `Catalog` holds the stable filter (`Array.prototype.filter`). The
Blog page's listed and featured posts go through it, and so do the Projects
page's featured projects and its list under a named category. Under "All
Projects" the list is the catalog itself, with no filter call.

Modules and files:
- `text.dfy`: `Text`, the string operations.
- `catalog.dfy`: `Catalog`, the filter and the subsequence relation.
- `blog_render.dfy`: `BlogRender`, the article renderer.
- `blog.dfy`: `Blog`, the post filter, the sample catalog and the page state.
- `projects.dfy`: `Projects`, the project filter, the sample catalog and the page state.
- `resume.dfy`: `Resume`, the résumé text and the file name.
- `contact.dfy`: `Contact`, the form record and the form state.

## Model

| member | source | states |
|---|---|---|
| Text.TrimStart | src/pages/Blog.tsx:691 | no contract: the string after its leading whitespace, what `\s*` removes after the number signs. `Text.LeadingSpaceRun` states what it removes |
| Text.TrimEnd | src/pages/Blog.tsx:707 | no contract: the string without its trailing whitespace, the other half of `trim()`. `Text.TrailingSpaceRun` states what it removes |
| Text.Trim | src/pages/Blog.tsx:700 | `trim()` never lengthens a string, and its result is empty or starts and ends with a non-whitespace character |
| Text.TrimEmptyIff | src/pages/Blog.tsx:707 | `trim()` gives the empty string exactly when every character is whitespace, which is when the empty-line branch is taken |
| Text.TrimOfTrimmed | src/pages/Resume.tsx:170 | a string without whitespace at either end is left unchanged by `trim()` |
| Text.TrimIdempotent | src/pages/Resume.tsx:170 | trimming twice is trimming once |
| Text.IsSpace | src/pages/Blog.tsx:691 | no contract: the characters of the class `\s`, which are also what `trim()` removes (see "## Left out"). `Text.TrimEmptyIff` states trim's meaning through it |
| Text.IsWordChar | src/pages/Blog.tsx:700 | no contract: the characters of the class `\w`, `[A-Za-z0-9_]`. `Text.WordRun` states the greedy `\w*` match through it |
| Text.LeadingSpaceRun | src/pages/Blog.tsx:691 | the leading run that `\s*` matches consists of whitespace and stops at the first non-whitespace character |
| Text.TrailingSpaceRun | src/pages/Resume.tsx:170 | the trailing run that `trim()` removes consists of whitespace and stops at the last non-whitespace character |
| Text.RunLengthRun | src/pages/Blog.tsx:690 | `^#+` matches exactly the leading run of `#` characters |
| Text.WordRun | src/pages/Blog.tsx:700 | `\w*` matches exactly the leading run of word characters |
| Text.WordRunUnique | src/pages/Blog.tsx:700 | any run of word characters that ends at a non-word character is the run `\w*` matches |
| Text.LowerChar | src/pages/Blog.tsx:421-423 | no contract: `toLowerCase` on one character, ASCII letters only (see "## Left out"). `Text.LowerIdempotent` states that lowering twice is lowering once |
| Text.Lower | src/pages/Blog.tsx:421-423 | no contract: `toLowerCase()`, lowering each character on its own. `Text.LowerIdempotent` and `Text.LowerAppend` state its properties |
| Text.LowerIdempotent | src/pages/Blog.tsx:421-423 | lower-casing a lower-cased string changes nothing |
| Text.LowerAppend | src/pages/Blog.tsx:421-423 | lower-casing distributes over concatenation |
| Text.Includes | src/pages/Blog.tsx:421-423 | no contract: `includes` as the scan over start positions. `Text.IncludesIff` ties it to occurrence |
| Text.IncludesIff | src/pages/Blog.tsx:421-423 | `includes` holds exactly when the needle occurs at some position of the haystack |
| Text.IncludesInfix | src/pages/Blog.tsx:421 | a string includes every one of its infixes |
| Text.IncludesEmpty | src/pages/Blog.tsx:421 | every string includes the empty string |
| Text.CountAppend | src/pages/Blog.tsx:688 | occurrences of a character add up over concatenation |
| Text.Split | src/pages/Blog.tsx:688 | `split` always yields at least one piece |
| Text.SplitCount | src/pages/Blog.tsx:688 | `split('\n')` yields one piece more than the string has line breaks |
| Text.Join | src/pages/Resume.tsx:149 | no contract: `join` with a separator between neighbouring elements and none for an empty list. `Text.JoinSplit`, `Text.SplitJoin` and `Text.JoinAppend` state its properties |
| Text.JoinSplit | src/pages/Blog.tsx:688 | joining the pieces of a split with the separator gives back the original string |
| Text.SplitPiecesFree | src/pages/Blog.tsx:688 | no piece of a split contains the separator |
| Text.SplitCons | src/pages/Blog.tsx:688 | splitting a non-empty string puts its first character at the front of the first piece of its tail's split, or starts a new piece at a separator |
| Text.ConsPieceAppend | src/pages/Blog.tsx:688 | putting a character at the front of the first piece ignores pieces appended at the back |
| Text.SplitAppend | src/pages/Blog.tsx:688 | splitting two strings joined by the separator gives the two splits one after the other |
| Text.SplitSingle | src/pages/Blog.tsx:688 | a string without the separator splits into itself alone |
| Text.SplitThree | src/pages/Blog.tsx:688 | three separator-free strings joined by the separator split back into those three |
| Text.SplitJoin | src/pages/Resume.tsx:149 | a non-empty list of separator-free strings, joined and split again, gives back the list |
| Text.JoinAppend | src/pages/Resume.tsx:149 | `join` of two non-empty lists is the two joins with one separator between them |
| Text.SplitAll | src/pages/Resume.tsx:146-151 | splitting each element of a list yields at least as many pieces as the list has elements |
| Text.SplitOverJoin | src/pages/Resume.tsx:146-151 | splitting a join is splitting each element and concatenating the pieces |
| Text.OccursAfter | src/pages/Resume.tsx:136-170 | an occurrence inside the second part of a concatenation is shifted by the length of the first part |
| Text.OccursBefore | src/pages/Resume.tsx:136-170 | an occurrence inside the first part of a concatenation stays where it is |
| Text.TrimOffset | src/pages/Resume.tsx:170 | the trimmed string is the infix of the original that starts after the leading whitespace, and whitespace alone surrounds it |
| Text.SpacePrefixBound | src/pages/Resume.tsx:170 | a non-whitespace character lies after any all-whitespace prefix |
| Text.SpaceSuffixBound | src/pages/Resume.tsx:170 | a non-whitespace character lies before any all-whitespace suffix |
| Text.OccursInTrimmed | src/pages/Resume.tsx:170 | a word with non-whitespace ends that occurs in a string also occurs in its trimmed form, shifted by the removed prefix |
| Text.TrimmedKeepsPieces | src/pages/Resume.tsx:170 | the same for every word of a list, all at once |
| Text.ShiftedInOrder | src/pages/Resume.tsx:136-170 | words found at increasing positions are in order |
| Text.TrimKeepsOrder | src/pages/Resume.tsx:170 | `trim()` keeps words with non-whitespace ends, and keeps them in the order they had |
| Text.TrimCutsOneBreak | src/pages/Resume.tsx:136-137 | when a text opens with one line break and then a non-whitespace character, `trim()` removes exactly that line break at the front |
| Text.ReplaceFirst | src/pages/Resume.tsx:177 | no contract: `replace` with a string pattern and a replacement without `$`. It rewrites only the first occurrence. `Text.ReplaceFirstAbsent` and `Text.ReplaceFirstAt` state its effect |
| Text.ReplaceFirstAbsent | src/pages/Resume.tsx:177 | `replace` with a one-character pattern that does not occur returns the string unchanged |
| Text.ReplaceFirstAt | src/pages/Resume.tsx:177 | `replace` with a one-character pattern rewrites its first occurrence only |
| Catalog.Select | src/pages/Blog.tsx:419-425 | `filter` never yields more elements than it is given |
| Catalog.SelectMembers | src/pages/Blog.tsx:419-425 | `filter` keeps exactly the elements that pass the test |
| Catalog.SelectMultiset | src/pages/Blog.tsx:419-425 | every element that passes is kept as many times as it occurs, and no other element is kept |
| Catalog.SubsequenceOfSelf | src/pages/Projects.tsx:139-141 | the unfiltered catalog is a subsequence of itself |
| Catalog.SelectIsSubsequence | src/pages/Blog.tsx:419-425 | `filter` keeps catalog order |
| Catalog.SelectCons | src/pages/Blog.tsx:419-425 | `filter` on a list with one more element in front keeps that element exactly when it passes |
| Catalog.SelectAll | src/pages/Blog.tsx:419-425 | a list whose every element passes is kept whole |
| Catalog.SelectNone | src/pages/Projects.tsx:141 | a list whose elements all fail becomes empty |
| Catalog.SelectCongruent | src/pages/Blog.tsx:419-425 | two tests that agree on every element select the same elements |
| BlogRender.ClassifyLine | src/pages/Blog.tsx:689-714 | no contract: the four branches in the source's order (heading, fence, paragraph, line break). `BlogRender.ClassifyLineKinds` states when each is taken |
| BlogRender.HeadingLine | src/pages/Blog.tsx:689-697 | no contract: the level is the `#` run capped at 6, and the text drops the run and the whitespace after it. `BlogRender.HeadingFromMatch` states this against the match |
| BlogRender.CodeLine | src/pages/Blog.tsx:699-705 | requires the fence; the text is what follows the fence and its word characters, trimmed. `BlogRender.CodeFromFence` states this against the match |
| BlogRender.ClassifyLineKinds | src/pages/Blog.tsx:689-714 | a line becomes a heading exactly when it starts with `#`, at level 1 to 6. It becomes code exactly when it starts with three backticks. It becomes a line break exactly when it is otherwise all whitespace. Otherwise it is a paragraph holding the line unchanged. The text of a heading or code line has no leading whitespace |
| BlogRender.HeadingFromMatch | src/pages/Blog.tsx:689-692 | a heading's level is the number of leading `#` capped at 6, and its text is what follows the `#` run and the whitespace after it |
| BlogRender.CodeFromFence | src/pages/Blog.tsx:699-700 | a code line's text is what follows the fence and the word characters after it, trimmed |
| BlogRender.ClassifyAll | src/pages/Blog.tsx:688 | the mapping over lines gives one block per line, each classified on its own |
| BlogRender.ClassifyAllAppend | src/pages/Blog.tsx:688 | classifying two lists of lines one after the other gives the two results one after the other |
| BlogRender.Render | src/pages/Blog.tsx:688 | no contract: the body split at line breaks, each line classified. `BlogRender.RenderLength`, `RenderAppend` and `RenderAt` state its properties |
| BlogRender.RenderLength | src/pages/Blog.tsx:688 | an article has one block more than its body has line breaks |
| BlogRender.RenderLine | src/pages/Blog.tsx:688 | a body without line breaks renders as one block |
| BlogRender.RenderAppend | src/pages/Blog.tsx:688 | two bodies joined by a line break render as the two renderings one after the other: no block spans lines |
| BlogRender.RenderAt | src/pages/Blog.tsx:688 | the i-th block is the classification of the i-th line |
| BlogRender.PlainLine | src/pages/Blog.tsx:707-712 | a line that starts with neither `#` nor a backtick and holds a non-whitespace character is a paragraph holding the line |
| BlogRender.TitleLine | src/pages/Blog.tsx:689-697 | `# Title` is a level-1 heading with text `Title` |
| BlogRender.RenderThreeLines | src/pages/Blog.tsx:688 | three lines joined by line breaks render as their three classifications |
| BlogRender.EmptyLineIsBlank | src/pages/Blog.tsx:714 | an empty line renders as a line break |
| BlogRender.SomeTextLine | src/pages/Blog.tsx:707-712 | `Some text` renders as a paragraph |
| BlogRender.RenderTitleAndText | src/pages/Blog.tsx:688-715 | `# Title`, an empty line and `Some text` render as a heading, a line break and a paragraph |
| BlogRender.IncludeLineIsHeading | src/pages/Blog.tsx:358 | the `#include` line inside the C++ sample of the fourth post renders as a level-1 heading with text `include <emscripten/bind.h>` |
| BlogRender.FenceDispatch | src/pages/Blog.tsx:699 | a line that starts with the fence takes the code branch |
| BlogRender.CodeLineTag | src/pages/Blog.tsx:700 | the code branch strips the fence and its language word and trims the rest |
| BlogRender.FenceLine | src/pages/Blog.tsx:699-705 | a fence line renders as code holding the trimmed rest after the fence and its language word |
| BlogRender.CppFenceShowsPlusPlus | src/pages/Blog.tsx:356 | the fence line that opens the C++ sample renders as code `++`, since `\w*` stops at `+` |
| BlogRender.JsxFenceLine | src/pages/Blog.tsx:371 | a fence line with language `jsx` renders as empty code |
| BlogRender.BareFenceLine | src/pages/Blog.tsx:368 | a closing fence line renders as empty code |
| BlogRender.SampleBodyLine | src/pages/Blog.tsx:707-712 | a line of the C++ sample in the WebAssembly post, `int fibonacci(int n) {`, renders as a paragraph |
| BlogRender.FencedSampleIsPerLine | src/pages/Blog.tsx:688-715 | a fenced sample is not grouped. The fences and each line between them are blocks of their own, and the opening "```c++" shows `++` |
| Blog.MatchesCategory | src/pages/Blog.tsx:420 | no contract: "all" or the post's own category. `Blog.FilteredPostsSpec` states the whole test |
| Blog.SomeTagIncludes | src/pages/Blog.tsx:423 | no contract: `tags.some(...)` as a recursion over the tags. `Blog.SomeTagIncludesIff` states its meaning |
| Blog.MatchesSearch | src/pages/Blog.tsx:421-423 | no contract: the lowered term is included in the lowered title, excerpt or a tag. `Blog.FilteredPostsSpec` states it through occurrence |
| Blog.Matches | src/pages/Blog.tsx:424 | no contract: both tests together. `Blog.FilteredPostsSpec` states it |
| Blog.SomeTagIncludesIff | src/pages/Blog.tsx:423 | `tags.some(...)` holds exactly when some tag, lower-cased, includes the needle |
| Blog.FilteredPosts | src/pages/Blog.tsx:419-425 | the listed posts are exactly the catalog's posts of the chosen category that match the search. Each is listed exactly as often as it occurs in the catalog, in catalog order |
| Blog.FeaturedPosts | src/pages/Blog.tsx:427 | the featured list is exactly the catalog's featured posts, each as often as it occurs, in catalog order |
| Blog.FilteredPostsSpec | src/pages/Blog.tsx:419-425 | a post is listed exactly when it is in the catalog, its category is the chosen one (or "all" is chosen), and the lower-cased term occurs in its lower-cased title, excerpt or one of its tags |
| Blog.AllAndEmptyListsEverything | src/pages/Blog.tsx:26-27 | in the initial state (every category, empty search) the whole catalog is listed |
| Blog.SearchIgnoresCase | src/pages/Blog.tsx:421-423 | two terms with the same lower-case form list the same posts |
| Blog.SearchSameAsLowerCase | src/pages/Blog.tsx:421-423 | a term lists the same posts as its lower-case form |
| Blog.CategoryNarrows | src/pages/Blog.tsx:420 | choosing a category only removes posts from what "all" lists |
| Blog.ContentNotSearched | src/pages/Blog.tsx:421-423 | a post's body never decides whether the post is listed |
| Blog.SamplePosts | src/pages/Blog.tsx:30-409 | the page's catalog has four posts, carrying the given bodies |
| Blog.EmptySearchMatches | src/pages/Blog.tsx:421 | every post matches the empty search |
| Blog.OtherCategoryExcluded | src/pages/Blog.tsx:420 | a post outside a named category is never listed under it |
| Blog.OnlyPost3IsCss | src/pages/Blog.tsx:325 | of the four posts only the third is a CSS post |
| Blog.CssCategoryListsCssPost | src/pages/Blog.tsx:419-425 | the CSS button with an empty search lists the CSS post alone |
| Blog.FeaturedSelect | src/pages/Blog.tsx:427 | filtering the four posts on `featured` keeps the first two |
| Blog.SampleFeatured | src/pages/Blog.tsx:427 | the first two posts are the featured ones |
| Blog.LowerReact | src/pages/Blog.tsx:421 | `"React".toLowerCase()` is `react` |
| Blog.ReactMatchesPost1 | src/pages/Blog.tsx:33 | the first post's title matches the search `react` |
| Blog.ReactSearchFindsFirstPost | src/pages/Blog.tsx:419-425 | searching `react` lists the first post |
| Blog.BlogPage.constructor | src/pages/Blog.tsx:26-28 | the page mounts with every category, an empty search and no article open |
| Blog.BlogPage.Listed | src/pages/Blog.tsx:419-425 | no contract: `filteredPosts` for the page's category and search term. `Blog.FilteredPosts` states what it lists |
| Blog.BlogPage.FeaturedShown | src/pages/Blog.tsx:491 | no contract: the featured section is shown only under "all" with an empty search term. `Blog.BlogPage.OpenPost` requires it for a featured card |
| Blog.BlogPage.SetSearchTerm | src/pages/Blog.tsx:468 | typing replaces the search term and changes nothing else |
| Blog.BlogPage.SelectCategory | src/pages/Blog.tsx:478 | a category button selects its value and changes nothing else |
| Blog.BlogPage.OpenPost | src/pages/Blog.tsx:580 | clicking a listed or featured card opens that post, replacing any open one |
| Blog.BlogPage.Click | src/pages/Blog.tsx:637-667 | the backdrop and the close button close the article; a click inside the panel does not |
| Blog.BlogPage.Article | src/pages/Blog.tsx:688 | the open article has one block per line of its body |
| Blog.OpenTwice | src/pages/Blog.tsx:511 | opening two posts in a row leaves only the second open. The category and the search term are kept, and so is the page invariant |
| Projects.InCategory | src/pages/Projects.tsx:141 | no contract: the test `project.category === selectedCategory`. `Projects.FilteredProjects` states the list it selects |
| Projects.IsFeatured | src/pages/Projects.tsx:143 | no contract: the test `project.featured`. `Projects.FeaturedProjects` states the list it selects |
| Projects.FilteredProjects | src/pages/Projects.tsx:139-141 | "all" lists the catalog unchanged. Any other category lists exactly the projects of that category, each as often as it occurs, in catalog order |
| Projects.FeaturedProjects | src/pages/Projects.tsx:143 | the featured list is exactly the featured projects, each as often as it occurs, in catalog order |
| Projects.EmptyCategoryListsNothing | src/pages/Projects.tsx:141 | a category no project has lists nothing |
| Projects.SingleCategoryListsAll | src/pages/Projects.tsx:139-141 | when every project has the chosen category, the whole catalog is listed |
| Projects.MobileListsNothing | src/pages/Projects.tsx:136 | no project of the page is a mobile project, so the Mobile button lists nothing |
| Projects.FrontendTests | src/pages/Projects.tsx:92 | of the six projects, the third and sixth are frontend projects and no other is |
| Projects.FrontendSuffix | src/pages/Projects.tsx:141 | from the third project on, the frontend filter keeps the third and the sixth |
| Projects.FrontendListsTwo | src/pages/Projects.tsx:139-141 | the Frontend button lists the third and sixth projects, in that order |
| Projects.FeaturedTests | src/pages/Projects.tsx:115 | the first, second and fifth projects are featured and no other is |
| Projects.FeaturedSuffix | src/pages/Projects.tsx:143 | from the third project on, the featured filter keeps the fifth only |
| Projects.FeaturedSelect | src/pages/Projects.tsx:143 | filtering the six projects on `featured` keeps the first, second and fifth |
| Projects.SampleFeaturedProjects | src/pages/Projects.tsx:143 | the featured section shows the first, second and fifth projects, in that order |
| Projects.HasCode | src/pages/Projects.tsx:229 | no contract: the JavaScript truth of `project.codeSnippet`, which is a sample that is present and non-empty |
| Projects.SampleViewCode | src/pages/Projects.tsx:229-231 | "View Code" appears on the first two featured cards and not on the fifth |
| Projects.ProjectsPage.constructor | src/pages/Projects.tsx:27-28 | the page mounts with every category and no dialog open |
| Projects.ProjectsPage.Listed | src/pages/Projects.tsx:139-141 | the grid shows a subsequence of the catalog |
| Projects.ProjectsPage.SelectCategory | src/pages/Projects.tsx:255 | a category button selects its value and leaves the dialog as it is |
| Projects.ProjectsPage.ViewCode | src/pages/Projects.tsx:229-231 | "View Code", offered only on a featured project with a non-empty code sample, opens the dialog on that project |
| Projects.ProjectsPage.Click | src/pages/Projects.tsx:342-356 | the backdrop and the close button close the dialog; a click inside the panel does not |
| Projects.ProjectsPage.CopyCode | src/pages/Projects.tsx:380 | "Copy Code" hands over the open project's code sample, which is never empty |
| Resume.Personal | src/pages/Resume.tsx:136-140 | no contract: the opening line break and the four personal lines. `Resume.StartsWithPersonalLines` states that the document starts with them |
| Resume.Section | src/pages/Resume.tsx:141-143 | no contract: an empty line, the heading on its own line, then the body. `Resume.HeadingInSection` states where the heading sits |
| Resume.ExperienceBlock | src/pages/Resume.tsx:146-151 | no contract: one experience entry. `Resume.ExperienceBlockLines` states its lines |
| Resume.EducationBlock | src/pages/Resume.tsx:154-158 | no contract: one education entry. `Resume.EducationBlockIsFramed` states its lines |
| Resume.SkillBlock | src/pages/Resume.tsx:161-163 | no contract: one skill group. `Resume.SkillBlockLines` states its lines |
| Resume.CertificationBlock | src/pages/Resume.tsx:166-169 | no contract: one certification. `Resume.CertificationBlockLines` states its lines |
| Resume.ExperienceText | src/pages/Resume.tsx:146-151 | no contract: each entry's block, joined with line breaks. `Resume.ExperienceBlockLines` states each block's lines |
| Resume.EducationText | src/pages/Resume.tsx:154-158 | no contract: each entry's block, joined with line breaks. `Resume.EducationBlockIsFramed` states each block's lines |
| Resume.SkillsText | src/pages/Resume.tsx:161-163 | no contract: each group's block, joined with line breaks. `Resume.SkillsInOrder` states its lines |
| Resume.CertificationsText | src/pages/Resume.tsx:166-169 | no contract: each certification's block, joined with line breaks. `Resume.CertificationBlockLines` states each block's lines |
| Resume.Layout | src/pages/Resume.tsx:136-170 | no contract: the top lines, the five sections in their fixed order, and the closing line's indentation. `Resume.LayoutHeadings` states where the headings are |
| Resume.Untrimmed | src/pages/Resume.tsx:136-169 | no contract: the template literal before `trim()`. `Resume.ResumeContent` trims it |
| Resume.Bullets | src/pages/Resume.tsx:149 | one bulleted line per item, each the bullet followed by the item |
| Resume.HeadingPositions | src/pages/Resume.tsx:136-170 | five heading positions, strictly increasing, the first just after the personal lines and the blank line after them |
| Resume.HeadingInSection | src/pages/Resume.tsx:141-143 | a section's heading sits right after the blank line that opens it |
| Resume.SectionHeadingAt | src/pages/Resume.tsx:141-143 | the same inside any surrounding text, shifted by what comes before |
| Resume.LayoutHeadings | src/pages/Resume.tsx:136-170 | the untrimmed text holds the five section headings at increasing positions |
| Resume.HeadingsHaveLetterEnds | src/pages/Resume.tsx:142-165 | each section heading starts and ends with a letter, so `trim()` cannot cut into it |
| Resume.TrimmedLayoutNotEmpty | src/pages/Resume.tsx:170 | the trimmed text is never empty |
| Resume.TrimmedLayoutStartsWithTop | src/pages/Resume.tsx:136-137 | when the first line is not blank, `trim()` removes only the opening line break, so the text starts with the personal lines |
| Resume.ResumeContent | src/pages/Resume.tsx:136-170 | the downloaded text is non-empty and starts and ends with a non-whitespace character |
| Resume.HeadingsInOrder | src/pages/Resume.tsx:142-165 | the downloaded text holds PROFESSIONAL SUMMARY, EXPERIENCE, EDUCATION, SKILLS and CERTIFICATIONS in this order |
| Resume.StartsWithPersonalLines | src/pages/Resume.tsx:137-140 | for a name that starts with a non-whitespace character, the downloaded text starts with the four personal lines |
| Resume.FramedLines | src/pages/Resume.tsx:146-151 | a block framed by line breaks splits into an empty line, its own lines and another empty line |
| Resume.LinesOf | src/pages/Resume.tsx:149 | the lines of a list, joined, are the list joined |
| Resume.ExperienceBlockIsFramed | src/pages/Resume.tsx:146-151 | an experience block is its lines framed by line breaks |
| Resume.ExperienceBlockLines | src/pages/Resume.tsx:146-151 | for fields without line breaks, an experience block has one line for its heading and one for its duration. Then come one line per responsibility, or one empty line when there is none, and one line for its technologies |
| Resume.JoinBreakFree | src/pages/Resume.tsx:149 | joining lines without line breaks, with a separator without line breaks, gives a single line |
| Resume.EducationBlockIsFramed | src/pages/Resume.tsx:154-158 | an education block is its lines framed by line breaks |
| Resume.SkillBlockLines | src/pages/Resume.tsx:161-163 | a skill group is one line between two empty ones |
| Resume.CertificationBlockLines | src/pages/Resume.tsx:166-169 | a certification is two lines, issue and credential, between two empty ones |
| Resume.SkillsInOrder | src/pages/Resume.tsx:161-163 | the lines of the skills section are the lines of each group, one group after another |
| Resume.FileName | src/pages/Resume.tsx:177 | no contract: the name with its first space replaced by `_`, then `_Resume.txt`. The three lemmas after it state the effect |
| Resume.FileNameNoSpace | src/pages/Resume.tsx:177 | a name without spaces gives `<name>_Resume.txt` |
| Resume.FileNameFirstSpace | src/pages/Resume.tsx:177 | only the first space of the name becomes an underscore; later spaces stay in the file name |
| Resume.FileNameOfTwoWords | src/pages/Resume.tsx:177 | a name of two words separated by one space, the first without spaces, gives `<first>_<last>_Resume.txt` |
| Resume.SampleFileName | src/pages/Resume.tsx:177 | the name `Your Name` gives `Your_Name_Resume.txt` |
| Contact.Updated | src/pages/Contact.tsx:62-67 | the change handler sets the named field to the new value and leaves the other three as they were |
| Contact.FormExtensional | src/pages/Contact.tsx:14-19 | a form record is determined by its four fields |
| Contact.UpdateSameValue | src/pages/Contact.tsx:62-67 | typing the value a field already holds changes nothing |
| Contact.UpdateTwice | src/pages/Contact.tsx:62-67 | of two changes to the same field the later wins |
| Contact.UpdatesCommute | src/pages/Contact.tsx:62-67 | changes to different fields can be made in either order |
| Contact.PayloadOf | src/pages/Contact.tsx:78-83 | the relay receives exactly the four template parameters `from_name`, `from_email`, `subject` and `message` |
| Contact.PayloadRoundTrip | src/pages/Contact.tsx:78-83 | the four fields are read back unchanged from the parameters |
| Contact.PayloadInjective | src/pages/Contact.tsx:78-83 | different forms send different parameters |
| Contact.Sent | src/pages/Contact.tsx:87 | no contract: a resolution with status 200 |
| Contact.AfterRelay | src/pages/Contact.tsx:86-100 | on status 200 every field is empty afterwards. On any other status, or a thrown error, every field keeps its value |
| Contact.FailureKeepsForm | src/pages/Contact.tsx:95-100 | a non-200 status or a thrown error leaves the form as it was |
| Contact.SuccessClearsForm | src/pages/Contact.tsx:86-94 | status 200 leaves the form as it was on mounting |
| Contact.AfterRelayIdempotent | src/pages/Contact.tsx:86-100 | reacting to the same answer twice is reacting once |
| Contact.Complete | src/pages/Contact.tsx:243-290 | no contract: every field non-empty, the browser's check for the `required` controls |
| Contact.SentFormIncomplete | src/pages/Contact.tsx:87-94 | after a sent message the cleared form fails the `required` check, so it cannot be resent until it is filled in again |
| Contact.ContactForm.constructor | src/pages/Contact.tsx:14-21 | the form mounts with four empty fields and nothing being sent |
| Contact.ContactForm.SubmitDisabled | src/pages/Contact.tsx:299 | no contract: `disabled={isSubmitting}`. `Contact.ContactForm.BeginSubmit` raises it and `Contact.ContactForm.CompleteSubmit` lowers it |
| Contact.ContactForm.HandleChange | src/pages/Contact.tsx:62-67 | a change sets one field and leaves the sending flag alone |
| Contact.ContactForm.BeginSubmit | src/pages/Contact.tsx:69-84 | submitting is only possible with the button enabled and every field filled in. It raises the sending flag, which disables the button, and sends the current fields unchanged |
| Contact.ContactForm.CompleteSubmit | src/pages/Contact.tsx:86-103 | once the relay answers a pending send, the form is cleared on success, kept otherwise, and the sending flag is lowered in every case |
| Contact.ContactForm.HandleSubmit | src/pages/Contact.tsx:69-104 | a whole submission of a filled-in form while the button is enabled. It sends the fields as they were, clears the form on success and keeps it otherwise, and ends not sending |
| Contact.FillAndSend | src/pages/Contact.tsx:62-104 | filling in the four fields with non-empty values and submitting sends what was typed and leaves the button enabled. The form ends empty exactly when status 200 came back |

## Left out

- The page layout, animations, icons and styling are left out. They do not change any value the model follows.
- `formatDate` on the Blog page is left out. It calls the browser's locale-dependent date formatting.
- The résumé download itself is left out: the `Blob`, the object URL and the temporary link. The model stops at the text and the file name.
- The clipboard write and the toast messages are left out. "Copy Code" returns the text it would write.
- The mail relay (`emailjs.send`) is left out. Its answer is a parameter: a status or a thrown error. The service, template and key identifiers are not modelled.
- `console.error` on a failed send is left out.
- Text.LowerChar: only the ASCII letters are lower-cased. JavaScript's `toLowerCase` also maps non-ASCII letters. The properties are stated for this ASCII mapping.
- Text.IsSpace: the whitespace set covers the Basic Multilingual Plane characters that ECMAScript counts as WhiteSpace or LineTerminator. Characters outside it are never whitespace there either.
- Blog.SamplePosts: the long article bodies are parameters. Only the article view reads them, and the renderer's properties hold for every body.
- Projects.LikeSample: the six sample projects are fixed by the fields the filters and the dialog read: category, featured, and whether a code sample is present. Titles, descriptions, links and the code texts are left free.
- Resume.ResumeContent: the record's texts are parameters rather than the page's sample résumé.
- Contact.ContactForm.HandleSubmit: the browser's format check on the email control (`type="email"`) is not modelled. The model admits any non-empty address. Also not modelled is the browser's removal of surrounding whitespace from that control's value.
- In the Contact model, a keystroke during a pending send is allowed (the form accepts it).
- The order in which React applies queued state updates is not modelled. Each handler's updates are applied in order.

## Notes

The post search looks only at a post's title, excerpt and tags
(`src/pages/Blog.tsx:419-425`). It never looks at the body.
`Blog.ContentNotSearched` proves that the body never decides a match.
A search for `react` therefore lists the first post through its title
(`Blog.ReactSearchFindsFirstPost`). The WebAssembly post mentions React only
in its body, so the search does not find it through that mention. The model
follows the code here, not a reading in which the body is searched.
