/**
 * The persona resolver of frontend/src/utils/converters.ts: the display name and the avatar
 * URL of the configured agent type. The agent type (`REACT_APP_AGENT_TYPE`) and the value
 * of `Math.random()` are parameters.
 */
module Converters {
  import opened Wrappers

  /** The agent type of the data analyst. */
  const DataAnalyst := "data-analyst"

  /** The name shown for an unset or unrecognised agent type. */
  const DefaultName := "AI"

  /** The names `currentAgentTypeToName` gives, by agent type. */
  const AgentNames: map<string, string> :=
    map[
      "data-analyst" := "Data Analyst",
      "astarion" := "Astarion",
      "aylin" := "Aylin",
      "gale" := "Gale",
      "halsin" := "Halsin",
      "isobel" := "Isobel",
      "jaheira" := "Jaheira",
      "karlac" := "Karlac",
      "laezel" := "Lae`zel",
      "minsc" := "Minsc",
      "minthara" := "Minthara",
      "shadowheart" := "Shadowheart",
      "wyll" := "Wyll",
      "cait" := "Cait",
      "cogsworth" := "Cogsworth",
      "curie" := "Curie",
      "mama-murphy" := "Mama Murphy",
      "nick-valentine" := "Nick Valentine",
      "paladin-danse" := "Paladin Danse",
      "preston-garvey" := "Preston Garvey",
      "serana" := "Serana"
    ]

  /** The fixed avatars of the characters, by agent type. */
  const CharacterAvatars: map<string, string> :=
    map[
      "astarion" := "https://api.dicebear.com/9.x/adventurer/svg?skinColor=f2d3b1&mouth=variant09&hair=long17&hairColor=afafaf&flip=true&radius=50",
      "aylin" := "https://api.dicebear.com/9.x/adventurer/svg?seed=Olivia&hair=longCurly&eyes=variant08&glasses=round&flip=true&radius=50",
      "gale" := "https://api.dicebear.com/9.x/adventurer/svg?seed=Alexander&hair=shortCombover&eyes=variant07&flip=true&radius=50",
      "halsin" := "https://api.dicebear.com/9.x/adventurer/svg?seed=Bear&hair=shortMessy&eyes=variant06&flip=true&radius=50",
      "isobel" := "https://api.dicebear.com/9.x/adventurer/svg?seed=Isobel&hair=straight&eyes=variant02&flip=true&radius=50",
      "jaheira" := "https://api.dicebear.com/9.x/adventurer/svg?seed=Jaheira&hair=longStraight&eyes=variant01&flip=true&radius=50",
      "karlac" := "https://api.dicebear.com/9.x/adventurer/svg?seed=Karlac&hair=longFringe&eyes=variant05&flip=true&radius=50",
      "laezel" := "https://api.dicebear.com/9.x/adventurer/svg?seed=Laezel&hair=short&eyes=variant04&flip=true&radius=50",
      "minsc" := "https://api.dicebear.com/9.x/adventurer/svg?seed=Minsc&hair=shaved&eyes=variant09&flip=true&radius=50",
      "minthara" := "https://api.dicebear.com/9.x/adventurer/svg?seed=Minthara&hair=longFringe&eyes=variant03&flip=true&radius=50",
      "shadowheart" := "https://api.dicebear.com/9.x/adventurer/svg?seed=Shadowheart&hair=shortMessy&eyes=variant02&flip=true&radius=50",
      "wyll" := "https://api.dicebear.com/9.x/adventurer/svg?seed=Wyll&hair=shortCombover&eyes=variant06&flip=true&radius=50",
      "cait" := "https://api.dicebear.com/9.x/adventurer/svg?seed=Cait&hair=shortMessy&eyes=variant04&flip=true&radius=50",
      "cogsworth" := "https://api.dicebear.com/9.x/adventurer/svg?seed=Cogsworth&hair=none&eyes=variant07&flip=true&radius=50",
      "curie" := "https://api.dicebear.com/9.x/adventurer/svg?seed=Curie&hair=longStraight&eyes=variant03&flip=true&radius=50",
      "mama-murphy" := "https://api.dicebear.com/9.x/adventurer/svg?seed=MamaMurphy&hair=longCurly&eyes=variant01&flip=true&radius=50",
      "nick-valentine" := "https://api.dicebear.com/9.x/adventurer/svg?seed=NickValentine&hair=shortCombover&eyes=variant09&flip=true&radius=50",
      "paladin-danse" := "https://api.dicebear.com/9.x/adventurer/svg?seed=PaladinDanse&hair=shortMessy&eyes=variant02&flip=true&radius=50",
      "preston-garvey" := "https://api.dicebear.com/9.x/adventurer/svg?seed=PrestonGarvey&hair=shortCombover&eyes=variant05&flip=true&radius=50",
      "serana" := "https://api.dicebear.com/9.x/adventurer/svg?seed=Serana&hair=longCurly&eyes=variant08&flip=true&radius=50"
    ]

  /** The pool used with `forceRandom` and for unrecognised agent types. */
  const RandomAvatars: seq<string> := [
    "https://api.dicebear.com/9.x/adventurer/svg?seed=Random1&flip=true&radius=50",
    "https://api.dicebear.com/9.x/adventurer/svg?seed=Random2&flip=true&radius=50"
  ]

  /** The pool of the data analyst. */
  const DataAnalystAvatars: seq<string> := [
    "https://api.dicebear.com/9.x/adventurer/svg?seed=Abby&flip=true&radius=50",
    "https://api.dicebear.com/9.x/adventurer/svg?seed=Bubba&flip=true&radius=50"
  ]

  /** `Math.floor(Math.random() * pool.length)`: always an index of the pool. */
  function RandomIndex(roll: real, poolSize: nat): (i: nat)
    requires 0.0 <= roll < 1.0
    requires poolSize > 0
    ensures i < poolSize
  {
    var scaled := roll * poolSize as real;
    assert 0.0 <= scaled < poolSize as real;
    scaled.Floor
  }

  /** A random pick from a pool. */
  function Pick(pool: seq<string>, roll: real): (r: string)
    requires 0.0 <= roll < 1.0
    requires |pool| > 0
    ensures r in pool
  {
    pool[RandomIndex(roll, |pool|)]
  }

  /** `currentAgentTypeToName`: the recognised agent types have fixed names; anything else is "AI". */
  function AgentTypeToName(agentType: Option<string>): (name: string)
    ensures name == DefaultName <==> agentType.None? || agentType.value !in AgentNames
    ensures agentType.Some? && agentType.value in AgentNames ==> name == AgentNames[agentType.value]
  {
    if agentType.Some? && agentType.value in AgentNames then AgentNames[agentType.value] else DefaultName
  }

  /**
   * `currentAgentTypeToAvatar`: a random avatar when forced; the data analyst picks from its
   * own pool; a character has a fixed avatar; an unrecognised type gets a random avatar.
   */
  function AgentTypeToAvatar(forceRandom: bool, agentType: Option<string>, roll: real): (avatar: string)
    requires 0.0 <= roll < 1.0
    ensures forceRandom ==> avatar in RandomAvatars
    ensures !forceRandom && agentType == Some(DataAnalyst) ==> avatar in DataAnalystAvatars
    ensures !forceRandom && agentType.Some? && agentType.value in CharacterAvatars ==> avatar == CharacterAvatars[agentType.value]
    ensures !forceRandom && agentType != Some(DataAnalyst) && (agentType.None? || agentType.value !in CharacterAvatars) ==>
      avatar in RandomAvatars
  {
    if forceRandom then Pick(RandomAvatars, roll)
    else if agentType == Some(DataAnalyst) then Pick(DataAnalystAvatars, roll)
    else if agentType.Some? && agentType.value in CharacterAvatars then CharacterAvatars[agentType.value]
    else Pick(RandomAvatars, roll)
  }

  /** The two switches recognise the same agent types. */
  lemma SameAgentTypes()
    ensures AgentNames.Keys == CharacterAvatars.Keys + {DataAnalyst}
    ensures DataAnalyst !in CharacterAvatars
  {
    CharactersAreNamed();
    NamedAreCharactersOrAnalyst();
    AnalystIsNoCharacter();
  }

  lemma CharactersAreNamed()
    ensures CharacterAvatars.Keys <= AgentNames.Keys
  {
  }

  lemma NamedAreCharactersOrAnalyst()
    ensures AgentNames.Keys <= CharacterAvatars.Keys + {DataAnalyst}
  {
  }

  lemma AnalystIsNoCharacter()
    ensures DataAnalyst in AgentNames && DataAnalyst !in CharacterAvatars
  {
  }

  /** Without `forceRandom`, the name is "AI" exactly when the avatar comes from the default branch. */
  lemma DefaultNameIffDefaultAvatar(agentType: Option<string>)
    ensures AgentTypeToName(agentType) == DefaultName <==>
      !(agentType == Some(DataAnalyst) || (agentType.Some? && agentType.value in CharacterAvatars))
  {
    SameAgentTypes();
  }

  /** An unset or unrecognised agent type, which is named "AI", gets a random avatar. */
  lemma UnrecognisedTypeGetsRandomAvatar(agentType: Option<string>, roll: real)
    requires 0.0 <= roll < 1.0
    requires agentType.None? || agentType.value !in AgentNames
    ensures AgentTypeToName(agentType) == DefaultName
    ensures AgentTypeToAvatar(false, agentType, roll) in RandomAvatars
  {
    DefaultNameIffDefaultAvatar(agentType);
  }

  /** A character's avatar does not depend on the random value; the pools' picks do. */
  lemma CharacterAvatarIsDeterministic(agentType: string, roll1: real, roll2: real)
    requires 0.0 <= roll1 < 1.0 && 0.0 <= roll2 < 1.0
    requires agentType in CharacterAvatars
    ensures AgentTypeToAvatar(false, Some(agentType), roll1) == AgentTypeToAvatar(false, Some(agentType), roll2)
  {
    AnalystIsNoCharacter();
  }

  /** The lower and the upper half of the random range pick the two pool entries in order. */
  lemma RandomPoolSplit(roll: real)
    requires 0.0 <= roll < 1.0
    ensures roll < 0.5 ==> Pick(RandomAvatars, roll) == RandomAvatars[0]
    ensures 0.5 <= roll ==> Pick(RandomAvatars, roll) == RandomAvatars[1]
  {
  }
}
