/** The canonical enumerations the listing pages work with, and the labels
    the user interface shows for them. */
module Statuses {

  /** `ItemPostType`: a lost-item post (失物) or a found-item post (招领). */
  datatype PostType = Lost | Found

  /** `ItemStatus`: still searching (寻找中), waiting to be claimed (待认领),
      returned (已归还). */
  datatype ItemStatus = Searching | AwaitingClaim | Returned

  /** `PublishReviewStatus`: the moderation and workflow state of one's own
      post. */
  datatype ReviewStatus = Pending | Approved | Matched | Claimed | Rejected | Cancelled

  function PostTypeLabel(t: PostType): string {
    match t
    case Lost => "失物"
    case Found => "招领"
  }

  function ItemStatusLabel(s: ItemStatus): string {
    match s
    case Searching => "寻找中"
    case AwaitingClaim => "待认领"
    case Returned => "已归还"
  }

  function ReviewStatusLabel(s: ReviewStatus): string {
    match s
    case Pending => "待审核"
    case Approved => "已通过"
    case Matched => "已匹配"
    case Claimed => "已认领"
    case Rejected => "已驳回"
    case Cancelled => "已取消"
  }

  /** An item that is not returned is awaiting its claim exactly when it was
      posted as found. */
  predicate AgreesWithPostType(status: ItemStatus, postType: PostType) {
    status == Returned || (status == AwaitingClaim <==> postType == Found)
  }
}
