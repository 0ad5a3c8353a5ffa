/** The fixed sequence of twelve hand positions a session walks through,
    in session order (script.js, the `positions` constant). */
module Positions {

  const Names: seq<string> := [
    "前額（第三眼）",
    "左右雙耳",
    "後腦（後腦勺）",
    "喉嚨",
    "心臟",
    "太陽輪（胃部）",
    "臍輪（丹田/腹部）",
    "底輪（前面）",
    "左右肩膀",
    "胃輪（背面）",
    "臍輪（背面）",
    "底輪（背面）"
  ]

  /** `positions.length` */
  const Count: nat := 12

  lemma CountIsLength()
    ensures |Names| == Count
  {
  }

  /** The index of the last position, the one on which a skip completes
      the session instead of advancing. */
  const Last: nat := Count - 1
}
