/** The four enumerations of the backend and their display labels. */
module Enums {
  /** Asset groups, in declaration order. */
  datatype AssetGroup = LIQUID | PROTECTION | INVESTMENT
  {
    /** The Chinese display label. */
    function Label(): string
    {
      match this
      case LIQUID => "活钱"
      case PROTECTION => "保障"
      case INVESTMENT => "投资"
    }

    /** The constant's name, as `Enum.name()` spells it. */
    function Name(): string
    {
      match this
      case LIQUID => "LIQUID"
      case PROTECTION => "PROTECTION"
      case INVESTMENT => "INVESTMENT"
    }
  }

  /** `AssetGroup.values()`: every group once, in declaration order. */
  const AssetGroups: seq<AssetGroup> := [AssetGroup.LIQUID, AssetGroup.PROTECTION, AssetGroup.INVESTMENT]

  /** Parent categories of an annual expense budget. */
  datatype ExpenseCategory = PROTECTION | LEISURE | DAILY | OTHER
  {
    function Label(): string
    {
      match this
      case PROTECTION => "人生保障"
      case LEISURE => "休闲玩乐"
      case DAILY => "日常开销"
      case OTHER => "其他"
    }
  }

  /** Kinds of planned income. */
  datatype IncomeType = SALARY | FUND | BONUS | DIVIDEND | OTHER
  {
    function Label(): string
    {
      match this
      case SALARY => "工资"
      case FUND => "公积金"
      case BONUS => "奖金"
      case DIVIDEND => "股权"
      case OTHER => "其他"
    }
  }

  /** Kinds of liability; the backend knows only loans. */
  datatype LiabilityGroup = LOAN
  {
    function Label(): string
    {
      match this
      case LOAN => "贷款"
    }
  }
}
