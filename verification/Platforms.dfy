/** The fixed publication platforms, in the order their set is declared. */
module Platforms {

  datatype Platform =
    | Douyin
    | WechatChannels
    | Bilibili
    | Baijiahao
    | Toutiao
    | Kuaishou
    | Xiaohongshu
    | FanqieVideo

  /** Every platform once; ordered maps keyed by platform iterate in this order. */
  const ALL: seq<Platform> :=
    [Douyin, WechatChannels, Bilibili, Baijiahao, Toutiao, Kuaishou, Xiaohongshu, FanqieVideo]

  /** Position of a platform in `ALL`. */
  function Rank(p: Platform): (r: nat)
    ensures r < |ALL| && ALL[r] == p
  {
    match p
    case Douyin => 0
    case WechatChannels => 1
    case Bilibili => 2
    case Baijiahao => 3
    case Toutiao => 4
    case Kuaishou => 5
    case Xiaohongshu => 6
    case FanqieVideo => 7
  }
}
