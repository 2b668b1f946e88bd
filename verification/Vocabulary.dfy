/** The strings of schemas/sql-templates.js: query names and statement texts. */
module Vocabulary {

  /** Query names, numbered like property names. */
  datatype QueryName = QueryName(id: int)

  const CREATE_ACCOUNT: QueryName := QueryName(0)
  const STORE_ADDRESS: QueryName := QueryName(1)
  const INSERT_PFP: QueryName := QueryName(2)
  const CLOSE_ACCOUNT: QueryName := QueryName(3)
  const CLOSE_LISTINGS: QueryName := QueryName(4)
  const CLOSE_CONVERSATIONS: QueryName := QueryName(5)
  const GET_ID: QueryName := QueryName(6)
  const STORE_TOKEN: QueryName := QueryName(7)
  const CHANGE_NAME: QueryName := QueryName(8)
  const CHANGE_EMAIL: QueryName := QueryName(9)
  const CHANGE_PASSWORD: QueryName := QueryName(10)
  const CHANGE_DOB: QueryName := QueryName(11)
  const CHANGE_PFP: QueryName := QueryName(12)
  const GET_CATEGORIES: QueryName := QueryName(13)
  const GET_ADDRESSES: QueryName := QueryName(14)
  const GET_LISTING: QueryName := QueryName(15)
  const GET_LOCATION: QueryName := QueryName(16)
  const GET_MEDIA: QueryName := QueryName(17)
  const GET_ACCOUNT: QueryName := QueryName(18)
  const GET_PICTURE: QueryName := QueryName(19)
  const GET_LISTINGS: QueryName := QueryName(20)
  const SAVE_LISTING: QueryName := QueryName(21)
  const FORGET_LISTING: QueryName := QueryName(22)
  const CREATE_ADDRESS: QueryName := QueryName(23)
  const CREATE_LISTING: QueryName := QueryName(24)
  const INSERT_MEDIA: QueryName := QueryName(25)
  const CHANGE_TITLE: QueryName := QueryName(26)
  const CHANGE_DESCRIPTION: QueryName := QueryName(27)
  const CHANGE_LOCATION: QueryName := QueryName(28)
  const CHANGE_CATEGORY: QueryName := QueryName(29)
  const CHANGE_CONDITION: QueryName := QueryName(30)
  const CHANGE_MEDIA: QueryName := QueryName(31)
  const DROP_EXTRA_MEDIA: QueryName := QueryName(32)
  const CLOSE_LISTING: QueryName := QueryName(33)
  const CREATE_CONVERSATION: QueryName := QueryName(34)
  const CLOSE_CONVERSATION: QueryName := QueryName(35)
  const CREATE_MESSAGE: QueryName := QueryName(36)
  const GET_CONVERSATIONS: QueryName := QueryName(37)
  const GET_CONVERSATION: QueryName := QueryName(38)
  const GET_MESSAGES: QueryName := QueryName(39)

  /** Statement texts; `OtherText` stands for every text the schemas do not use.  `Read`
      collects the statements that only read and whose rows are left to the server;
      SearchListing is the one that is modelled. */
  datatype Sql =
    | InsertAccount
    | InsertAddress
    | InsertUserMedia
    | UpsertUserMedia
    | DeleteAccount
    | CloseAccountListings
    | CloseAccountConversations
    | ChangeName
    | ChangeEmail
    | ChangePassHash
    | ChangeDob
    | StorePushToken
    | InsertSavedListing
    | DeleteSavedListing
    | InsertListing
    | InsertListingMedia
    | ChangeTitle
    | ChangeDescription
    | ChangeAddress
    | ChangeCategory
    | ChangeCondition
    | UpsertListingMedia
    | DropExtraMedia
    | CloseListing
    | CloseListingConversations
    | UpsertConversation
    | CloseConversation
    | InsertMessage
    | InsertMessageMedia
    | SearchListing
    | Read(statement: ReadStatement)
    | OtherText(text: string)

  datatype ReadStatement =
    | SelectCategories
    | SelectAccountByEmail
    | SelectOwnListing
    | SelectAddress
    | SelectListingMedia
    | SelectOwnListings
    | SelectSavedListings
    | SelectAddresses
    | SelectAccount
    | SelectPicture
    | SelectAccountListings
    | SelectOpenListing
    | SelectConversations
    | SelectConversation
    | SelectMessages
}
