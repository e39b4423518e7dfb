/** Field identifiers, caps and opcodes of the Companion Display Protocol, version 12. */
module Protocol {
  import opened Wire

  const FIELD_NONE: byte := 0x00
  const FIELD_TITLE: byte := 0x01
  const FIELD_BODY: byte := 0x02
  const FIELD_CONTENT_ID: byte := 0x03
  const FIELD_IMAGE: byte := 0x04
  const FIELD_UI_DECLARATION: byte := 0x05
  const FIELD_ICON: byte := 0x06
  const FIELD_TAG_STATE: byte := 0x07
  const FIELD_LIST_DOC: byte := 0x08
  const FINAL_FIELD_FLAG := 0x80

  const SHAPE_UNKNOWN: byte := 0x00
  const SHAPE_TEXT: byte := 0x01
  const SHAPE_IMAGE: byte := 0x02
  const SHAPE_LIST: byte := 0x03

  const OP_START: byte := 0x01
  const OP_CHUNK: byte := 0x02
  const OP_END: byte := 0x03

  const SESS_HELLO: byte := 0x01
  const SESS_BYE: byte := 0x02
  const SESS_ACQUIRE: byte := 0x03
  const SESS_RELEASE: byte := 0x04
  const SESS_LIST_STATE: byte := 0x8C

  const PROTOCOL_VERSION: byte := 12

  const MAX_SESSIONS := 4
  const NO_SESSION: byte := 0
  const MAX_FIELD_LEN := 4096
  const MAX_IMAGE_FIELD_LEN := 128 * 1024
  const ICON_BYTES := 512
  const MAX_CONTENT_ID_LEN := 32
  const MAX_LIST_DOC_LEN := 16 * 1024
  const MAX_TAGS := 6
  const MAX_UI_DECLARATION_LEN := 512
  const LIST_STATE_ENTRIES_PER_NOTIFY := 30

  // 527 (the ATT ceiling) less 3 bytes of ATT overhead and the 2-byte CHUNK header.
  const MAX_IMAGE_CHUNK_PAYLOAD := 527 - 3 - 2
  const IMAGE_WRITE_QUEUE_LEN := 10
  const IMAGE_CHUNK_ACK_INTERVAL := 32

  predicate IsKnownField(field: byte) {
    FIELD_TITLE <= field <= FIELD_LIST_DOC
  }

  /** Assets belong to the peer, not to the screen. */
  predicate IsAsset(field: byte) {
    field == FIELD_UI_DECLARATION || field == FIELD_ICON
  }

  predicate UsesSeqChunk(field: byte) {
    field == FIELD_IMAGE || field == FIELD_TITLE || field == FIELD_BODY
  }

  function FieldCap(field: byte): nat {
    if field == FIELD_CONTENT_ID then MAX_CONTENT_ID_LEN
    else if field == FIELD_IMAGE then MAX_IMAGE_FIELD_LEN
    else if field == FIELD_UI_DECLARATION then MAX_UI_DECLARATION_LEN
    else if field == FIELD_ICON then 4 + ICON_BYTES
    else if field == FIELD_TAG_STATE then 1 + 2 * MAX_TAGS
    else if field == FIELD_LIST_DOC then MAX_LIST_DOC_LEN
    else MAX_FIELD_LEN
  }

  predicate IsKnownShape(shape: byte) {
    shape == SHAPE_TEXT || shape == SHAPE_IMAGE || shape == SHAPE_LIST
  }

  type KnownShape = s: byte | IsKnownShape(s) witness SHAPE_TEXT

  /** The content fields a peer of the given declared shape may push. */
  predicate FieldMatchesShape(field: byte, shape: byte) {
    if shape == SHAPE_TEXT then
      field == FIELD_TITLE || field == FIELD_BODY || field == FIELD_CONTENT_ID || field == FIELD_TAG_STATE
    else if shape == SHAPE_IMAGE then
      field == FIELD_IMAGE || field == FIELD_TAG_STATE
    else
      shape == SHAPE_LIST && field == FIELD_LIST_DOC
  }

  /**
    A content field is for peers of one shape only, but for tag state, which TEXT and IMAGE peers have; an asset
    is for none.
  */
  lemma FieldsGoWithOneShape(field: byte)
    requires IsKnownField(field)
    ensures FieldMatchesShape(field, SHAPE_IMAGE) <==> field == FIELD_IMAGE || field == FIELD_TAG_STATE
    ensures FieldMatchesShape(field, SHAPE_LIST) <==> field == FIELD_LIST_DOC
    ensures FieldMatchesShape(field, SHAPE_TEXT) <==>
              !IsAsset(field) && !FieldMatchesShape(field, SHAPE_LIST) && field != FIELD_IMAGE
  {
  }
}
