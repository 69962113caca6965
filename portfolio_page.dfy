/**
 * The two pieces of logic on the standalone portfolio page (src/app/portfolio/page.tsx): the
 * project slideshow, a window of three cards moved by a cursor that wraps around, and the
 * skill section, which shows one category or all of them.
 */
module PortfolioPage {
  import opened Text

  /** A project card; only what the slideshow looks at (descriptions and links are static). */
  datatype Project = Project(id: nat, title: string, featured: bool)

  const ProjectsPerSlide: nat := 3

  /** The six cards of the page, in order. */
  const ProjectData: seq<Project> := [
    Project(1, "ARGON OS", true),
    Project(2, "GRAN Compiler", true),
    Project(3, "CineWave", true),
    Project(4, "IDE Portfolio", true),
    Project(5, "Steganography Tool", false),
    Project(6, "OWASP Risk Calculator", false)
  ]

  /** `totalSlides`: one slide per starting card that still leaves a full window. */
  function TotalSlides(count: nat): (r: int)
    ensures r + ProjectsPerSlide - 1 == count
  {
    count - ProjectsPerSlide + 1
  }

  lemma SixProjectsFourSlides()
    ensures TotalSlides(|ProjectData|) == 4
  {
  }

  /** JavaScript's `%`, which truncates toward zero: the remainder takes the dividend's sign. */
  function JsRem(a: int, n: int): (r: int)
    requires n > 0
    ensures a >= 0 ==> 0 <= r < n && r == a % n
    ensures a < 0 ==> r == -((-a) % n)
  {
    if a >= 0 then a % n else -((-a) % n)
  }

  /** `nextSlide`: one card further, from the last slide back to the first. */
  function NextSlide(s: int, total: int): (r: int)
    requires total > 0
    ensures 0 <= s < total ==> 0 <= r < total && r == (if s == total - 1 then 0 else s + 1)
  {
    JsRem(s + 1, total)
  }

  /** `prevSlide`: one card back, from the first slide round to the last. */
  function PrevSlide(s: int, total: int): (r: int)
    requires total > 0
    ensures 0 <= s < total ==> 0 <= r < total && r == (if s == 0 then total - 1 else s - 1)
  {
    JsRem(s - 1 + total, total)
  }

  /** Back and forward undo each other on every valid slide. */
  lemma PrevNextInverse(s: int, total: int)
    requires total > 0 && 0 <= s < total
    ensures PrevSlide(NextSlide(s, total), total) == s
    ensures NextSlide(PrevSlide(s, total), total) == s
  {
  }

  /** The slide reached after `k` presses of the forward arrow. */
  function NextTimes(s: int, total: int, k: nat): int
    requires total > 0
  {
    if k == 0 then s else NextSlide(NextTimes(s, total, k - 1), total)
  }

  /** Pressing `a` times and then `b` times is pressing `a + b` times. */
  lemma {:induction false} NextTimesAdd(s: int, total: int, a: nat, b: nat)
    requires total > 0
    ensures NextTimes(s, total, a + b) == NextTimes(NextTimes(s, total, a), total, b)
  {
    if b > 0 {
      NextTimesAdd(s, total, a, b - 1);
    }
  }

  /** Short of the last slide, every press moves exactly one card on. */
  lemma {:induction false} NextTimesBelow(s: int, total: int, k: nat)
    requires total > 0 && 0 <= s && s + k < total
    ensures NextTimes(s, total, k) == s + k
  {
    if k > 0 {
      NextTimesBelow(s, total, k - 1);
    }
  }

  /** As many forward presses as there are slides bring the cursor back where it was. */
  lemma FullCycle(s: int, total: int)
    requires total > 0 && 0 <= s < total
    ensures NextTimes(s, total, total) == s
  {
    var toLast := total - 1 - s;
    NextTimesBelow(s, total, toLast);
    NextTimesAdd(s, total, toLast, 1);
    assert NextTimes(s, total, toLast + 1) == 0;
    NextTimesAdd(s, total, toLast + 1, s);
    NextTimesBelow(0, total, s);
  }

  /** `Array.prototype.slice(start, end)` for a non-negative start: clamped to the length. */
  function Slice<T>(xs: seq<T>, start: nat, end: nat): (r: seq<T>)
    ensures start <= end <= |xs| ==> r == xs[start..end]
    ensures |r| <= end - start || |r| == 0
  {
    var e := if end <= |xs| then end else |xs|;
    if start <= e then xs[start..e] else []
  }

  /** `getCurrentSlideProjects`: the cards from the cursor on, at most three. On every slide the
      cursor can reach, that is exactly three consecutive cards. */
  function CurrentSlideProjects(projects: seq<Project>, s: nat): (r: seq<Project>)
    ensures |r| <= ProjectsPerSlide
    ensures s < TotalSlides(|projects|) ==> |r| == ProjectsPerSlide && r == projects[s..s + ProjectsPerSlide]
    ensures forall p :: p in r ==> p in projects
  {
    Slice(projects, s, s + ProjectsPerSlide)
  }

  /** The arrows and the dots are drawn only when there is more than one slide: with three
      cards per slide, when there are more than three projects. */
  function ShowNavigation(count: nat): (r: bool)
    ensures r <==> count > ProjectsPerSlide
  {
    TotalSlides(count) > 1
  }

  /** One dot per slide when the navigation is drawn, none otherwise. */
  function IndicatorCount(count: nat): (r: nat)
    ensures r > 0 <==> ShowNavigation(count)
    ensures ShowNavigation(count) ==> r == TotalSlides(count)
  {
    if TotalSlides(count) > 1 then TotalSlides(count) else 0
  }

  /** A skill category of the page: its key, heading and skill names in order. */
  datatype Category = Category(key: string, title: string, skills: seq<string>)

  const AllKey: string := "all"

  const SkillCategories: seq<Category> := [
    Category("languages", "Programming Languages",
      ["Python", "C", "C++", "Java", "JavaScript", "SQL", "x86 Assembly"]),
    Category("frontend", "Frontend Development",
      ["React.js", "Next.js", "HTML5", "CSS3", "Tailwind CSS"]),
    Category("backend", "Backend & Databases",
      ["Node.js", "Express.js", "MongoDB", "MySQL", "PostgreSQL", "Supabase"]),
    Category("tools", "Tools & DevOps",
      ["Git", "GitHub", "Docker", "Linux", "QEMU", "Vercel"])
  ]

  /** `getAllSkills`: every category's skills, category after category. */
  function AllSkills(cats: seq<Category>): seq<string>
  {
    if cats == [] then [] else cats[0].skills + AllSkills(cats[1..])
  }

  /** The skills of the first category with the key, if there is one. */
  function SkillsOf(cats: seq<Category>, key: string): (r: Option<seq<string>>)
    ensures r.Some? <==> exists i :: 0 <= i < |cats| && cats[i].key == key
  {
    if cats == [] then None
    else if cats[0].key == key then Some(cats[0].skills)
    else SkillsOf(cats[1..], key)
  }

  /** `filteredSkills`: all skills for `all`, the category's own list for a known key, and
      nothing for any other key. */
  function FilteredSkills(cats: seq<Category>, active: string): (r: seq<string>)
    ensures active == AllKey ==> r == AllSkills(cats)
    ensures active != AllKey && SkillsOf(cats, active).Some? ==> r == SkillsOf(cats, active).value
    ensures active != AllKey && (forall i :: 0 <= i < |cats| ==> cats[i].key != active) ==> r == []
  {
    if active == AllKey then AllSkills(cats)
    else match SkillsOf(cats, active)
      case Some(s) => s
      case None => []
  }

  /** `ys` occurs in `xs` as a contiguous run starting at index `k`. */
  ghost predicate InfixAt<T>(xs: seq<T>, ys: seq<T>, k: int)
  {
    0 <= k && k + |ys| <= |xs| && xs[k..k + |ys|] == ys
  }

  /** A category's list sits inside the concatenation unchanged, after the lists before it. */
  lemma {:induction false} CategoryInsideAll(cats: seq<Category>, i: nat)
    requires i < |cats|
    ensures exists k :: InfixAt(AllSkills(cats), cats[i].skills, k)
  {
    if i == 0 {
      assert InfixAt(AllSkills(cats), cats[0].skills, 0);
    } else {
      CategoryInsideAll(cats[1..], i - 1);
      var k :| InfixAt(AllSkills(cats[1..]), cats[1..][i - 1].skills, k);
      var h := |cats[0].skills|;
      assert AllSkills(cats) == cats[0].skills + AllSkills(cats[1..]);
      SliceAfterPrefix(cats[0].skills, AllSkills(cats[1..]), k, k + |cats[i].skills|);
      assert InfixAt(AllSkills(cats), cats[i].skills, h + k);
    }
  }

  /** A slice of the second part of a concatenation, indexed from the whole. */
  lemma SliceAfterPrefix<T>(a: seq<T>, b: seq<T>, lo: nat, hi: nat)
    requires lo <= hi <= |b|
    ensures (a + b)[|a| + lo..|a| + hi] == b[lo..hi]
  {
  }

  /** The first category with the key is one of the categories. */
  lemma {:induction false} SkillsOfIsCategory(cats: seq<Category>, key: string)
    requires SkillsOf(cats, key).Some?
    ensures exists i :: 0 <= i < |cats| && cats[i].key == key && SkillsOf(cats, key).value == cats[i].skills
  {
    if cats[0].key != key {
      SkillsOfIsCategory(cats[1..], key);
      var i :| 0 <= i < |cats[1..]| && cats[1..][i].key == key && SkillsOf(cats[1..], key).value == cats[1..][i].skills;
      assert cats[i + 1] == cats[1..][i];
    }
  }

  /** Whatever category is chosen, the skills shown appear, in the same order and next to each
      other, in the full list. */
  lemma FilteredWithinAll(cats: seq<Category>, active: string)
    ensures var r := FilteredSkills(cats, active);
            exists k :: InfixAt(AllSkills(cats), r, k)
  {
    var r := FilteredSkills(cats, active);
    if active == AllKey {
      assert InfixAt(AllSkills(cats), r, 0);
    } else if SkillsOf(cats, active).Some? {
      SkillsOfIsCategory(cats, active);
      var i :| 0 <= i < |cats| && cats[i].key == active && SkillsOf(cats, active).value == cats[i].skills;
      CategoryInsideAll(cats, i);
    } else {
      assert InfixAt(AllSkills(cats), r, 0);
    }
  }

  /** The page's four categories hold 24 skills in all, and `all` shows every one. */
  lemma AllSkillsOfPage()
    ensures |FilteredSkills(SkillCategories, AllKey)| == 24
    ensures FilteredSkills(SkillCategories, "languages") == SkillCategories[0].skills
    ensures FilteredSkills(SkillCategories, "design") == []
  {
    assert SkillsOf(SkillCategories, "languages") == Some(SkillCategories[0].skills);
  }

  /** The slideshow cursor and the chosen skill category of the page. */
  class Slideshow {
    var currentSlide: int
    var activeCategory: string

    ghost predicate Valid()
      reads this
    {
      0 <= currentSlide < TotalSlides(|ProjectData|)
    }

    /** The first slide and the `languages` category. */
    constructor ()
      ensures Valid() && currentSlide == 0 && activeCategory == "languages"
    {
      currentSlide := 0;
      activeCategory := "languages";
    }

    method Next()
      requires Valid()
      modifies this`currentSlide
      ensures Valid() && currentSlide == NextSlide(old(currentSlide), TotalSlides(|ProjectData|))
    {
      currentSlide := NextSlide(currentSlide, TotalSlides(|ProjectData|));
    }

    method Prev()
      requires Valid()
      modifies this`currentSlide
      ensures Valid() && currentSlide == PrevSlide(old(currentSlide), TotalSlides(|ProjectData|))
    {
      currentSlide := PrevSlide(currentSlide, TotalSlides(|ProjectData|));
    }

    /** A dot jumps straight to its slide; there is one dot per slide. */
    method GoTo(i: int)
      requires 0 <= i < IndicatorCount(|ProjectData|)
      modifies this`currentSlide
      ensures Valid() && currentSlide == i
    {
      currentSlide := i;
    }

    method SetCategory(key: string)
      modifies this`activeCategory
      ensures activeCategory == key
    {
      activeCategory := key;
    }

    /** The cards on screen: always three. */
    function Cards(): (r: seq<Project>)
      requires Valid()
      reads this
      ensures |r| == ProjectsPerSlide
    {
      CurrentSlideProjects(ProjectData, currentSlide)
    }
  }
}
