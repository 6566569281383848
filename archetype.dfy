/** An archetype of a Maven catalog, as the quick picks show it. */
module Archetypes {
  import opened JsValues

  /** The label an archetype is shown with: `${gid}:${aid}`. */
  function CoordinateLabel(gid: JsString, aid: JsString): string {
    gid.Template() + ":" + aid.Template()
  }

  /** The text before the first ':' (all of it when there is none). */
  function ColonPrefix(text: string): string {
    if |text| == 0 || text[0] == ':' then "" else [text[0]] + ColonPrefix(text[1..])
  }

  /** A prefix without ':' is what precedes the first ':' after it. */
  lemma {:induction false} ColonPrefixOfLabel(x: string, rest: string)
    requires ':' !in x
    ensures ColonPrefix(x + ":" + rest) == x
  {
    if |x| > 0 {
      assert (x + ":" + rest)[1..] == x[1..] + ":" + rest;
      ColonPrefixOfLabel(x[1..], rest);
    }
  }

  /** A label names its coordinates: two labels built from group ids without ':' are equal
      exactly when the group ids and the artifact ids render the same. */
  lemma CoordinateLabelIdentifies(g1: JsString, a1: JsString, g2: JsString, a2: JsString)
    requires ':' !in g1.Template() && ':' !in g2.Template()
    ensures CoordinateLabel(g1, a1) == CoordinateLabel(g2, a2) <==>
            g1.Template() == g2.Template() && a1.Template() == a2.Template()
  {
    var x1, x2 := g1.Template(), g2.Template();
    var l1, l2 := CoordinateLabel(g1, a1), CoordinateLabel(g2, a2);
    ColonPrefixOfLabel(x1, a1.Template());
    ColonPrefixOfLabel(x2, a2.Template());
    assert a1.Template() == l1[|x1| + 1..];
    assert a2.Template() == l2[|x2| + 1..];
  }

  /** One archetype: its coordinates, where it comes from and what the pick shows. The source
      names the label field `label`; the ids are `string` fields that may hold `null`. */
  class Archetype {
    var labelText: string
    var description: JsString
    var artifactId: JsString
    var groupId: JsString
    var repository: JsString
    var versions: seq<string>

    /** `new Archetype(aid, gid, repo?, desc?)`: an omitted argument leaves its field `undefined`. */
    constructor (aid: JsString, gid: JsString, repo: JsString := Undefined, desc: JsString := Undefined)
      ensures artifactId == aid && groupId == gid
      ensures versions == []
      ensures labelText == CoordinateLabel(gid, aid)
      ensures description == desc && repository == repo
    {
      artifactId := aid;
      groupId := gid;
      versions := [];
      labelText := gid.Template() + ":" + aid.Template();
      description := desc;
      repository := repo;
    }
  }
}
