/**
 * The "ryancv" site page: the animations it resolves from the theme, the
 * lists it shows (the API's lists when they have entries, the local ones
 * otherwise), the social links that have an address, and how many entries of
 * each list it shows.
 */
module RyancvApp {
  import opened Wrappers
  import opened JsValue

  // ---------------------------------------------------------------------------
  // resolveAnimation
  // ---------------------------------------------------------------------------

  /** An animation's three phases. */
  datatype Animation = Animation(initial: Value, animate: Value, transition: Value)

  /** The animation as an object with the three keys. */
  function AnimationValue(a: Animation): (r: Value)
    ensures Truthy(r)
    ensures Get(r, "initial") == a.initial && Get(r, "animate") == a.animate && Get(r, "transition") == a.transition
  {
    var fs := [("initial", a.initial), ("animate", a.animate), ("transition", a.transition)];
    assert Lookup(fs, "animate") == Lookup(fs[1..], "animate");
    assert Lookup(fs, "transition") == Lookup(fs[1..], "transition") == Lookup(fs[2..], "transition");
    Obj(fs)
  }

  /** `resolveAnimation(preset, fallback)`: the fallback for a falsy preset; otherwise each phase the preset does not leave nullish. */
  function ResolveAnimation(preset: Value, fallback: Animation): (r: Animation)
    ensures !Truthy(preset) ==> r == fallback
    ensures Truthy(preset) && !Nullish(Get(preset, "initial")) ==> r.initial == Get(preset, "initial")
    ensures Truthy(preset) && Nullish(Get(preset, "initial")) ==> r.initial == fallback.initial
    ensures Truthy(preset) && !Nullish(Get(preset, "animate")) ==> r.animate == Get(preset, "animate")
    ensures Truthy(preset) && Nullish(Get(preset, "animate")) ==> r.animate == fallback.animate
    ensures Truthy(preset) && !Nullish(Get(preset, "transition")) ==> r.transition == Get(preset, "transition")
    ensures Truthy(preset) && Nullish(Get(preset, "transition")) ==> r.transition == fallback.transition
  {
    if !Truthy(preset) then fallback
    else Animation(
      Coalesce(Get(preset, "initial"), fallback.initial),
      Coalesce(Get(preset, "animate"), fallback.animate),
      Coalesce(Get(preset, "transition"), fallback.transition))
  }

  /** A fallback with every phase set never leaves a phase of the result unset. */
  lemma ResolvedPhasesSet(preset: Value, fallback: Animation)
    requires !Nullish(fallback.initial) && !Nullish(fallback.animate) && !Nullish(fallback.transition)
    ensures var r := ResolveAnimation(preset, fallback);
      !Nullish(r.initial) && !Nullish(r.animate) && !Nullish(r.transition)
  {
  }

  /** A preset that sets every phase is taken whole. */
  lemma CompletePresetWins(a: Animation, fallback: Animation)
    requires !Nullish(a.initial) && !Nullish(a.animate) && !Nullish(a.transition)
    ensures ResolveAnimation(AnimationValue(a), fallback) == a
  {
  }

  /** Resolving an already resolved animation against the same complete fallback changes nothing. */
  lemma ResolveIdempotent(preset: Value, fallback: Animation)
    requires !Nullish(fallback.initial) && !Nullish(fallback.animate) && !Nullish(fallback.transition)
    ensures var r := ResolveAnimation(preset, fallback);
      ResolveAnimation(AnimationValue(r), fallback) == r
  {
    ResolvedPhasesSet(preset, fallback);
    CompletePresetWins(ResolveAnimation(preset, fallback), fallback);
  }

  // ---------------------------------------------------------------------------
  // Lists
  // ---------------------------------------------------------------------------

  /** `value?.length` where it is a number: arrays and strings. */
  function Length(value: Value): (r: nat)
    ensures value.Arr? ==> r == |value.items|
    ensures !value.Arr? && !value.Str? ==> r == 0
  {
    match value
    case Arr(items) => |items|
    case Str(s) => |s|
    case _ => 0
  }

  /** `(api?.length ? api : local) || []` */
  function ApiOrLocal(api: Value, local: Value): (r: Value)
    ensures Truthy(r)
    ensures Length(api) > 0 ==> r == api
    ensures Length(api) == 0 && Truthy(local) ==> r == local
    ensures Length(api) == 0 && !Truthy(local) ==> r == Arr([])
  {
    Or(if Length(api) > 0 then api else local, Arr([]))
  }

  /** An empty API list does not hide the local one: the page shows the local entries. */
  lemma EmptyApiListFallsBack(local: seq<Value>)
    ensures ApiOrLocal(Arr([]), Arr(local)) == Arr(local)
  {
  }

  /** `experiences` and `skills`: the API data's lists when they have entries, the local arrays otherwise. */
  function Experiences(apiData: Value, experienceArray: Value): (r: Value)
    ensures Truthy(r)
    ensures Get(apiData, "experiences").Arr? && Get(apiData, "experiences").items != [] ==> r == Get(apiData, "experiences")
  {
    ApiOrLocal(Get(apiData, "experiences"), experienceArray)
  }

  /** See `Experiences`. */
  function Skills(apiData: Value, lineArray: Value): (r: Value)
    ensures Truthy(r)
    ensures Get(apiData, "skills").Arr? && Get(apiData, "skills").items != [] ==> r == Get(apiData, "skills")
  {
    ApiOrLocal(Get(apiData, "skills"), lineArray)
  }

  /** `posts`, `works` and `contacts`: the given list, or `[]` when it is falsy. */
  function OrEmpty(list: Value): (r: Value)
    ensures Truthy(r)
    ensures Truthy(list) ==> r == list
    ensures !Truthy(list) ==> r == Arr([])
  {
    Or(list, Arr([]))
  }

  // ---------------------------------------------------------------------------
  // Socials
  // ---------------------------------------------------------------------------

  /** A social link: its label (`label` is a reserved word here, hence `caption`) and its address. */
  datatype Social = Social(caption: string, href: Value)

  /** The Facebook and LinkedIn links, keeping those with a truthy address, in that order. */
  function Socials(apiData: Value): (r: seq<Social>)
    ensures |r| <= 2
    ensures forall i :: 0 <= i < |r| ==> Truthy(r[i].href)
    ensures Social("Facebook", Get(apiData, "facebook")) in r <==> Truthy(Get(apiData, "facebook"))
    ensures Social("LinkedIn", Get(apiData, "linkedin")) in r <==> Truthy(Get(apiData, "linkedin"))
    ensures |r| == 2 ==> r[0].caption == "Facebook" && r[1].caption == "LinkedIn"
  {
    var facebook := Social("Facebook", Get(apiData, "facebook"));
    var linkedin := Social("LinkedIn", Get(apiData, "linkedin"));
    (if Truthy(facebook.href) then [facebook] else []) + (if Truthy(linkedin.href) then [linkedin] else [])
  }

  // ---------------------------------------------------------------------------
  // Shown entries
  // ---------------------------------------------------------------------------

  /** `list.slice(0, limit)` */
  function Take<T>(list: seq<T>, limit: nat): (r: seq<T>)
    ensures |r| <= limit && |r| <= |list|
    ensures |r| == limit || |r| == |list|
    ensures r == list[..|r|]
  {
    if |list| <= limit then list else list[..limit]
  }

  /** The page shows at most 4 experiences, 6 works and 3 posts, the first of each list. */
  const ExperienceLimit: nat := 4
  const WorkLimit: nat := 6
  const PostLimit: nat := 3

  /** The entries shown of each list. */
  datatype Shown = Shown(experiences: seq<Value>, works: seq<Value>, posts: seq<Value>)

  /** What the experience, work and blog sections render. */
  function ShownEntries(experiences: seq<Value>, works: seq<Value>, posts: seq<Value>): (r: Shown)
    ensures |r.experiences| <= ExperienceLimit && |r.works| <= WorkLimit && |r.posts| <= PostLimit
    ensures |r.experiences| <= |experiences| && |r.works| <= |works| && |r.posts| <= |posts|
    ensures r.experiences == experiences[..|r.experiences|] && r.works == works[..|r.works|] && r.posts == posts[..|r.posts|]
    ensures |experiences| <= ExperienceLimit ==> r.experiences == experiences
    ensures |works| <= WorkLimit ==> r.works == works
    ensures |posts| <= PostLimit ==> r.posts == posts
    ensures |experiences| > ExperienceLimit ==> |r.experiences| == ExperienceLimit
    ensures |works| > WorkLimit ==> |r.works| == WorkLimit
    ensures |posts| > PostLimit ==> |r.posts| == PostLimit
  {
    Shown(Take(experiences, ExperienceLimit), Take(works, WorkLimit), Take(posts, PostLimit))
  }

  /** Taking twice with the same limit takes nothing more. */
  lemma TakeIdempotent<T>(list: seq<T>, limit: nat)
    ensures Take(Take(list, limit), limit) == Take(list, limit)
  {
  }

  /**
   * `item.description?.slice(0, 120)`: the first 120 characters of a
   * description (or entries of an array); nothing without one. `None` is the
   * TypeError any other value raises, having no `slice`.
   */
  function Excerpt(description: Value): (r: Option<Value>)
    ensures description.Str? ==>
      r.Some? && r.value.Str? && |r.value.s| <= 120 && |r.value.s| <= |description.s|
      && r.value.s == description.s[..|r.value.s|]
    ensures description.Str? && |description.s| <= 120 ==> r == Some(description)
    ensures description.Str? && |description.s| > 120 ==> |r.value.s| == 120
    ensures description.Arr? ==>
      r.Some? && r.value.Arr? && |r.value.items| == (if |description.items| > 120 then 120 else |description.items|)
      && r.value.items == description.items[..|r.value.items|]
    ensures Nullish(description) ==> r == Some(Undefined)
    ensures r.None? <==> !description.Str? && !description.Arr? && !Nullish(description)
  {
    match description
    case Str(s) => Some(Str(Take(s, 120)))
    case Arr(items) => Some(Arr(Take(items, 120)))
    case Undefined => Some(Undefined)
    case Null => Some(Undefined)
    case _ => None
  }
}
