/** The agent table and the relay order (constants.ts). */
module Constants {
  import opened Types

  /** `AGENTS[id]`: the persona configuration recorded under `id`. */
  function Agents(id: AgentId): (c: AgentConfig)
    ensures c.id == id
  {
    match id
    case Listie => ListieConfig
    case Linky => LinkyConfig
    case Wordy => WordyConfig
    case Sparky => SparkyConfig
    case Blendy => BlendyConfig
  }

  const ListieConfig: AgentConfig := AgentConfig(
      Listie, "Listie", "The Decoder", "#FF3366", "#FF6B8A",
      "Separating Data from Instructions...",
      "Separates raw data from actionable instructions (Von Neumann Puzzle 2).",
      "Hi, I'm Listie! I separate your Data from Instructions.")

  const LinkyConfig: AgentConfig := AgentConfig(
      Linky, "Linky", "The Signal Detector", "#00E5B8", "#4DEBB8",
      "Finding the Signal in the Noise...",
      "Identifies the 'Redundant Majority Vote' to find truth (Von Neumann Puzzle 5).",
      "Hey there, I'm Linky. I find the Signal in the Noise.")

  const WordyConfig: AgentConfig := AgentConfig(
      Wordy, "Wordy", "The Observer", "#FFD426", "#FFE566",
      "Collapsing possibilities...",
      "Turns 'Maybe-land' possibilities into 'Actual-land' facts (Von Neumann Puzzle 4).",
      "Greetings. I am Wordy. I collapse Possibilities into Reality.")

  const SparkyConfig: AgentConfig := AgentConfig(
      Sparky, "Sparky", "The Game Theorist", "#FF6B2C", "#FF8F5A",
      "Revealing the concealed...",
      "Analyzes the bet: What are you revealing vs. concealing? (Von Neumann Puzzle 3).",
      "Yo, I'm Sparky! I see exactly what you're Bluffing.")

  const BlendyConfig: AgentConfig := AgentConfig(
      Blendy, "Blendy", "The Architect", "#7B5CFF", "#9F85FF",
      "System compiled.",
      "Synthesizes the distinct uses into a reliable system.",
      "System Online. I am Blendy, your Architect.")

  /** `AGENT_ORDER`: the order in which the relay runs and the progress bar lists agents. */
  const AgentOrder: seq<AgentId> := [Listie, Linky, Wordy, Sparky, Blendy]

  /** `AGENT_ORDER` lists every agent exactly once, five in all: it is a
      permutation of the `AgentId` type. */
  lemma AgentOrderIsPermutation()
    ensures |AgentOrder| == 5
    ensures forall id: AgentId :: id in AgentOrder
    ensures forall i, j :: 0 <= i < j < |AgentOrder| ==> AgentOrder[i] != AgentOrder[j]
  {
    forall id: AgentId
      ensures id in AgentOrder
    {
      match id
      case Listie => assert AgentOrder[0] == id;
      case Linky => assert AgentOrder[1] == id;
      case Wordy => assert AgentOrder[2] == id;
      case Sparky => assert AgentOrder[3] == id;
      case Blendy => assert AgentOrder[4] == id;
    }
  }

  /** The relay starts with Listie and ends with Blendy, the synthesizer. */
  lemma AgentOrderEnds()
    ensures AgentOrder[0] == Listie && AgentOrder[|AgentOrder| - 1] == Blendy
  {
  }

  /** No two personas share a display name. */
  lemma AgentNamesDistinct()
    ensures forall a: AgentId, b: AgentId :: a != b ==> Agents(a).name != Agents(b).name
  {
  }

  /** `Array.prototype.indexOf`: the first position of `x` in `s`, or -1. */
  function IndexOf<T(==)>(s: seq<T>, x: T): (i: int)
    ensures -1 <= i < |s|
    ensures i == -1 <==> x !in s
    ensures 0 <= i ==> s[i] == x
    ensures forall k :: 0 <= k < i ==> s[k] != x
    decreases |s|
  {
    if |s| == 0 then -1
    else if s[0] == x then 0
    else
      var j := IndexOf(s[1..], x);
      if j == -1 then -1 else j + 1
  }
}
