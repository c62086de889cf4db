/** The profile snapshot `calculate_big_five_scores` reads: a JSON-like
    value, so that a snapshot that is not a dict, an absent field and a field
    of the wrong type can all be stated, together with the lookups the
    scorer makes with Python's defaults and `isinstance` guards. */
module Snapshot {
  import opened Wrappers
  import opened Text

  /** A decoded JSON value. Python's `int` and `float` are both `Num`. */
  datatype Json =
    | Null
    | Bool(b: bool)
    | Num(n: real)
    | Str(s: string)
    | List(items: seq<Json>)
    | Object(fields: map<string, Json>)

  /** Python truthiness. */
  predicate Truthy(j: Json) {
    match j
    case Null => false
    case Bool(b) => b
    case Num(n) => n != 0.0
    case Str(s) => s != []
    case List(items) => items != []
    case Object(fields) => fields != map[]
  }

  /** `d.get(key, default)` on a dict. */
  function Get(fields: map<string, Json>, key: string, default: Json): (r: Json)
    ensures key !in fields ==> r == default
    ensures key in fields ==> r == fields[key]
  {
    if key in fields then fields[key] else default
  }

  /** `isinstance(x, (int, float))`: Python's `bool` is an `int`. */
  predicate IsNumber(j: Json) {
    j.Num? || j.Bool?
  }

  /** The numeric value of a number (`True` is 1), and 0 for anything that
      is not one, as the guards that replace or skip such values do. */
  function NumericValue(j: Json): (r: real)
    ensures !IsNumber(j) ==> r == 0.0
    ensures j.Num? ==> r == j.n
    ensures r < 0.0 ==> j.Num? && j.n < 0.0
    ensures IsNumber(j) ==> (r != 0.0 <==> Truthy(j))
  {
    match j
    case Num(n) => n
    case Bool(b) => if b then 1.0 else 0.0
    case _ => 0.0
  }

  /** `data.get("posts", [])`, replaced by `[]` when it is not a list. */
  function PostsOf(fields: map<string, Json>): seq<Json> {
    match Get(fields, "posts", List([]))
    case List(items) => items
    case _ => []
  }

  /** Whether a post contributes a text: it is a dict whose `"text"` is a
      string with a non-space character. */
  predicate HasText(post: Json) {
    && post.Object?
    && var text := Get(post.fields, "text", Str(""));
    && Truthy(text) && text.Str? && |Strip(text.s)| > 0
  }

  /** The stripped text of a post that has one. */
  function PostText(post: Json): (t: string)
    requires HasText(post)
    ensures t != []
  {
    Strip(Get(post.fields, "text", Str("")).s)
  }

  /** `posts_text`: the stripped texts of the posts that have one, in order. */
  function UsableTexts(posts: seq<Json>): (ts: seq<string>)
    ensures |ts| <= |posts|
    ensures forall k :: 0 <= k < |ts| ==> ts[k] != []
  {
    if posts == [] then []
    else
      var init := UsableTexts(posts[..|posts| - 1]);
      var last := posts[|posts| - 1];
      if HasText(last) then init + [PostText(last)] else init
  }

  /** A post's `key` field as a number: absent, non-number or non-dict
      posts add nothing. */
  function FieldOf(post: Json, key: string): real {
    if post.Object? then NumericValue(Get(post.fields, key, Num(0.0))) else 0.0
  }

  /** The sum of a numeric field over all posts, `total_reactions` and
      `total_comments`. */
  function FieldSum(posts: seq<Json>, key: string): real {
    if posts == [] then 0.0
    else FieldSum(posts[..|posts| - 1], key) + FieldOf(posts[|posts| - 1], key)
  }

  /** `data.get("friends_count", 0)`, replaced by 0 when it is not a
      number. */
  function FriendsCount(fields: map<string, Json>): real {
    NumericValue(Get(fields, "friends_count", Num(0.0)))
  }

  /** `len(groups)`, where `groups` is replaced by `[]` when it is not a list. */
  function GroupCount(fields: map<string, Json>): nat {
    match Get(fields, "groups", List([]))
    case List(items) => |items|
    case _ => 0
  }

  /** `basic_info.get("bio", "")` when `basic_info` is a dict, else `""`. */
  function BioOf(fields: map<string, Json>): Json {
    var info := Get(fields, "basic_info", Object(map[]));
    if info.Object? then Get(info.fields, "bio", Str("")) else Str("")
  }

  /** Whether the biography is complete: a truthy string of more than 20
      characters after stripping. A truthy bio that is not a string has no
      `strip` method, and the scorer raises `AttributeError`. */
  function BioComplete(bio: Json): (r: Outcome<bool>)
    ensures r.Raised? <==> Truthy(bio) && !bio.Str?
    ensures r.Raised? ==> r.error == AttributeError
    ensures r == Done(true) <==> bio.Str? && |Strip(bio.s)| > 20
  {
    if !Truthy(bio) then Done(false)
    else if bio.Str? then Done(|Strip(bio.s)| > 20)
    else Raised(AttributeError)
  }
}
